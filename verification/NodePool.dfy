/**
 * The tagged lock-free stack (src/fev_simple_mpmc_stack.h) with the node pool that recycles its nodes
 * (src/fev_simple_mpmc_pool.h): any number of threads, each with a local cache over one global stack.
 *
 * The double-word CAS is one step; the loads of `count` and of `top` are two. `count` is unbounded. The
 * steps are defined twice over: with a CAS that compares exact counts, and with the code's, which compares
 * 64-bit words, where the exact count is history; Run64 relates the two.
 */
module NodePool {
  import opened Common

  type NodeId = nat
  type ThreadId = nat

  datatype Pc =
    | Idle
    | PopCount | PopTop(count: nat) | PopNext(top: Option<NodeId>, count: nat)
    | PopCas(node: NodeId, next: Option<NodeId>, count: nat) | PopEmpty | Allocated(node: NodeId)
    | PushCount(node: NodeId) | PushTop(node: NodeId, count: nat)
    | PushNext(node: NodeId, top: Option<NodeId>, count: nat) | PushCas(node: NodeId, top: Option<NodeId>, count: nat)

  /** A thread with its local cache. `list` is history: the nodes of the cache from the top. */
  datatype Thread = Thread(pc: Pc, top: Option<NodeId>, size: int, max: nat, closing: bool, list: seq<NodeId>)

  /** History: where a node is. */
  datatype Place = Held | InStack | InCache(t: ThreadId) | InPush(t: ThreadId)

  datatype State = State(
    top: Option<NodeId>, count: nat,
    next: seq<Option<NodeId>>, localNext: seq<Option<NodeId>>,    // by node
    threads: seq<Thread>,
    stack: seq<NodeId>,      // history: the nodes of the global stack from the top
    places: seq<Place>       // history, by node
  )

  /** What a thread does next, where it has a choice. */
  datatype Choice = Go | Alloc | Free(node: NodeId) | Close | OutOfMemory

  ghost predicate Init(s: State) {
    && s.top == None && s.count == 0 && s.stack == []
    && s.next == [] && s.localNext == [] && s.places == []
    && forall t :: 0 <= t < |s.threads| ==>
         s.threads[t] == Thread(Idle, None, 0, s.threads[t].max, false, [])
  }

  function Goto(s: State, t: ThreadId, pc: Pc): State
    requires t < |s.threads|
  {
    s.(threads := s.threads[t := s.threads[t].(pc := pc)])
  }

  /** fev_simple_mpmc_pool_alloc_local(), :93-111. */
  ghost predicate DoAlloc(s: State, s': State, t: ThreadId) {
    && t < |s.threads| && s.threads[t].pc == Idle && !s.threads[t].closing
    && var th := s.threads[t];
       match th.top
       case None => s' == Goto(s, t, PopCount)
       case Some(node) =>
         && node < |s.localNext| && node < |s.places|
         && s' == s.(threads := s.threads[t := th.(top := s.localNext[node], size := th.size - 1,
                                                  pc := Allocated(node), list := Rest(th.list))],
                     places := s.places[node := Held])
  }

  function Rest(list: seq<NodeId>): seq<NodeId> {
    if list == [] then [] else list[1..]
  }

  /** fev_simple_mpmc_pool_free_local(), :113-130, for a node that some caller holds. */
  ghost predicate DoFree(s: State, s': State, t: ThreadId, node: NodeId) {
    && t < |s.threads| && s.threads[t].pc == Idle && !s.threads[t].closing
    && node < |s.places| && s.places[node] == Held && node < |s.localNext|
    && var th := s.threads[t];
       s' == if th.size == th.max then Goto(s, t, PushCount(node)).(places := s.places[node := InPush(t)])
             else s.(localNext := s.localNext[node := th.top],
                     threads := s.threads[t := th.(top := Some(node), size := th.size + 1, list := [node] + th.list)],
                     places := s.places[node := InCache(t)])
  }

  /** fev_simple_mpmc_pool_fini_local(), :143-154: one round of its loop per step. The size is not kept. */
  ghost predicate DoClose(s: State, s': State, t: ThreadId) {
    && t < |s.threads| && s.threads[t].pc == Idle
    && var th := s.threads[t];
       match th.top
       case None => s' == s.(threads := s.threads[t := th.(closing := true)])
       case Some(node) =>
         && node < |s.localNext| && node < |s.places|
         && s' == s.(threads := s.threads[t := th.(closing := true, top := s.localNext[node],
                                                  pc := PushCount(node), list := Rest(th.list))],
                     places := s.places[node := InPush(t)])
  }

  /** Number of values of a uintptr_t. */
  const TAGS: nat := 0x1_0000_0000_0000_0000

  /** The count as it is compared. */
  function Tag(exact: bool, count: nat): nat {
    if exact then count else count % TAGS
  }

  /** src/fev_simple_mpmc_stack.h:73-82, and the allocation at src/fev_simple_mpmc_pool.h:57-61. */
  ghost predicate PopStepsAs(exact: bool, s: State, s': State, t: ThreadId, choice: Choice) {
    && t < |s.threads|
    && match s.threads[t].pc
       case PopCount => s' == Goto(s, t, PopTop(s.count))
       case PopTop(count) => s' == Goto(s, t, PopNext(s.top, count))
       case PopNext(top, count) =>
         (match top
          case None => s' == Goto(s, t, PopEmpty)
          case Some(node) => node < |s.next| && s' == Goto(s, t, PopCas(node, s.next[node], count)))
       case PopCas(node, next, count) =>
         && node < |s.places|
         && s' == if s.top == Some(node) && Tag(exact, s.count) == Tag(exact, count)
                  then Goto(s, t, Allocated(node))
                       .(top := next, count := s.count + 1, stack := Rest(s.stack), places := s.places[node := Held])
                  else Goto(s, t, PopNext(s.top, s.count))
       case PopEmpty =>
         s' == if choice == OutOfMemory then Goto(s, t, Idle)
               else Goto(s, t, Allocated(|s.places|))
                    .(next := s.next + [None], localNext := s.localNext + [None], places := s.places + [Held])
       case Allocated(_) => s' == Goto(s, t, Idle)
       case _ => false
  }

  /** src/fev_simple_mpmc_stack.h:53-62 */
  ghost predicate PushStepsAs(exact: bool, s: State, s': State, t: ThreadId) {
    && t < |s.threads|
    && match s.threads[t].pc
       case PushCount(node) => s' == Goto(s, t, PushTop(node, s.count))
       case PushTop(node, count) => s' == Goto(s, t, PushNext(node, s.top, count))
       case PushNext(node, top, count) =>
         node < |s.next| && s' == Goto(s, t, PushCas(node, top, count)).(next := s.next[node := top])
       case PushCas(node, top, count) =>
         && node < |s.places|
         && s' == if s.top == top && Tag(exact, s.count) == Tag(exact, count)
                  then Goto(s, t, Idle)
                       .(top := Some(node), count := s.count + 1, stack := [node] + s.stack,
                         places := s.places[node := InStack])
                  else Goto(s, t, PushNext(node, s.top, s.count))
       case _ => false
  }

  ghost predicate PopSteps(s: State, s': State, t: ThreadId, choice: Choice) {
    PopStepsAs(true, s, s', t, choice)
  }

  ghost predicate PushSteps(s: State, s': State, t: ThreadId) {
    PushStepsAs(true, s, s', t)
  }

  ghost predicate NextAs(exact: bool, s: State, s': State, t: ThreadId, choice: Choice) {
    && t < |s.threads|
    && match s.threads[t].pc
       case Idle =>
         (match choice
          case Alloc => DoAlloc(s, s', t)
          case Free(node) => DoFree(s, s', t, node)
          case Close => DoClose(s, s', t)
          case _ => false)
       case PushCount(_) | PushTop(_, _) | PushNext(_, _, _) | PushCas(_, _, _) => PushStepsAs(exact, s, s', t)
       case _ => PopStepsAs(exact, s, s', t, choice)
  }

  ghost predicate Next(s: State, s': State, t: ThreadId, choice: Choice) {
    NextAs(true, s, s', t, choice)
  }

  // ---------------------------------------------------------------------------------------------

  predicate AnyThread(t: int) { true }
  predicate AnyNode(n: int) { true }

  /** Following `next` from `top` gives exactly `list`. */
  ghost predicate Linked(top: Option<NodeId>, next: seq<Option<NodeId>>, list: seq<NodeId>)
    decreases |list|
  {
    if list == [] then top == None
    else top == Some(list[0]) && list[0] < |next| && Linked(next[list[0]], next, list[1..])
  }

  /** The list is made of the nodes of a place. */
  ghost predicate Holds(places: seq<Place>, list: seq<NodeId>, place: Place) {
    Distinct(list) && forall n :: n in list ==> n < |places| && places[n] == place
  }

  ghost predicate CacheOk(s: State, t: ThreadId) {
    && t < |s.threads|
    && var th := s.threads[t];
       && Linked(th.top, s.localNext, th.list) && Holds(s.places, th.list, InCache(t))
       && (!th.closing ==> th.size == |th.list| <= th.max)
  }

  /** The node that the thread is pushing onto the global stack. */
  function InFlight(pc: Pc): Option<NodeId> {
    match pc
    case PushCount(node) => Some(node)
    case PushTop(node, _) => Some(node)
    case PushNext(node, _, _) => Some(node)
    case PushCas(node, _, _) => Some(node)
    case _ => None
  }

  /** What the thread has read is current as long as the count is. */
  ghost predicate ViewOk(s: State, t: ThreadId) {
    && t < |s.threads|
    && (InFlight(s.threads[t].pc).Some? ==>
          InFlight(s.threads[t].pc).value < |s.places| && s.places[InFlight(s.threads[t].pc).value] == InPush(t))
    && match s.threads[t].pc
       case PopTop(count) => count <= s.count
       case PopNext(top, count) =>
         count <= s.count && (count == s.count ==> top == s.top) && (top.Some? ==> top.value < |s.next|)
       case PopCas(node, next, count) =>
         node < |s.next| && count <= s.count && (count == s.count ==> s.top == Some(node) && next == s.next[node])
       case PushTop(_, count) => count <= s.count
       case PushNext(_, top, count) => count <= s.count && (count == s.count ==> top == s.top)
       case PushCas(node, top, count) =>
         node < |s.next| && s.next[node] == top && count <= s.count && (count == s.count ==> top == s.top)
       case _ => true
  }

  ghost predicate NodeOk(s: State, n: NodeId) {
    && n < |s.places|
    && match s.places[n]
       case Held => true
       case InStack => n in s.stack
       case InCache(t) => t < |s.threads| && n in s.threads[t].list
       case InPush(t) => t < |s.threads| && InFlight(s.threads[t].pc) == Some(n)
  }

  ghost predicate StackOk(s: State) {
    && |s.next| == |s.localNext| == |s.places|
    && Linked(s.top, s.next, s.stack) && Holds(s.places, s.stack, InStack)
  }

  ghost predicate Inv(s: State) {
    && StackOk(s)
    && (forall t {:trigger AnyThread(t)} :: AnyThread(t) && 0 <= t < |s.threads| ==> CacheOk(s, t) && ViewOk(s, t))
    && (forall n {:trigger AnyNode(n)} :: AnyNode(n) && 0 <= n < |s.places| ==> NodeOk(s, n))
  }

  lemma LinkedPush(top: Option<NodeId>, next: seq<Option<NodeId>>, list: seq<NodeId>, node: NodeId)
    requires Linked(top, next, list) && node < |next| && next[node] == top
    ensures Linked(Some(node), next, [node] + list)
  {
    assert ([node] + list)[1..] == list;
  }

  lemma {:induction false} LinkedUpdate(top: Option<NodeId>, next: seq<Option<NodeId>>, list: seq<NodeId>,
                                        node: NodeId, to: Option<NodeId>)
    requires Linked(top, next, list) && node < |next| && node !in list
    ensures Linked(top, next[node := to], list)
    decreases |list|
  {
    if list != [] {
      LinkedUpdate(next[list[0]], next, list[1..], node, to);
    }
  }

  lemma {:induction false} LinkedExtend(top: Option<NodeId>, next: seq<Option<NodeId>>, list: seq<NodeId>)
    requires Linked(top, next, list)
    ensures Linked(top, next + [None], list)
    decreases |list|
  {
    if list != [] {
      LinkedExtend(next[list[0]], next, list[1..]);
    }
  }

  lemma HoldsPop(places: seq<Place>, list: seq<NodeId>, place: Place, to: Place)
    requires Holds(places, list, place) && list != [] && to != place
    ensures list[0] < |places| && places[list[0]] == place && list[0] !in list[1..]
    ensures Holds(places[list[0] := to], list[1..], place)
    ensures forall n :: n in list[1..] <==> n in list && n != list[0]
  {
    assert list[0] in list && list == [list[0]] + list[1..];
    assert forall n :: n in list[1..] ==> n in list;
  }

  lemma HoldsPush(places: seq<Place>, list: seq<NodeId>, place: Place, node: NodeId)
    requires Holds(places, list, place) && node < |places| && places[node] != place
    ensures Holds(places[node := place], [node] + list, place)
  {
    DistinctConcat([node], list);
  }

  lemma HoldsMoved(places: seq<Place>, list: seq<NodeId>, place: Place, node: NodeId, to: Place)
    requires Holds(places, list, place) && node < |places| && places[node] != place
    ensures Holds(places[node := to], list, place)
  {
  }

  lemma InitInv(s: State)
    requires Init(s)
    ensures Inv(s)
  {
  }

  // ---------------------------------------------------------------------------------------------
  // Steps that move one node
  // ---------------------------------------------------------------------------------------------

  predicate NearBy(place: Place, t: ThreadId) {
    place == Held || place == InStack || place == InCache(t) || place == InPush(t)
  }

  /** Only thread `t`, node `node` and the stack change; the count tells of every change of the stack. */
  ghost predicate Frame(s: State, s': State, t: ThreadId, node: NodeId) {
    && t < |s.threads| == |s'.threads| && s'.threads == s.threads[t := s'.threads[t]]
    && node < |s.places| == |s'.places| == |s'.next| == |s'.localNext| && |s.next| == |s.places| == |s.localNext|
    && s'.places == s.places[node := s'.places[node]] && NearBy(s.places[node], t) && NearBy(s'.places[node], t)
    && s'.next == s.next[node := s'.next[node]] && s'.localNext == s.localNext[node := s'.localNext[node]]
    && (s'.next[node] == s.next[node] || s.places[node] == InPush(t))
    && (s'.localNext[node] == s.localNext[node] || s.places[node] == Held)
    && ((s'.count == s.count && s'.top == s.top && s'.stack == s.stack) || s'.count == s.count + 1)
    && (forall n :: n in s.stack && n != node ==> n in s'.stack)
    && (forall n :: n in s.threads[t].list && n != node ==> n in s'.threads[t].list)
    && (InFlight(s.threads[t].pc).Some? ==>
          InFlight(s.threads[t].pc) == Some(node) || InFlight(s'.threads[t].pc) == InFlight(s.threads[t].pc))
  }

  lemma OtherCache(s: State, s': State, t: ThreadId, node: NodeId, u: ThreadId)
    requires Frame(s, s', t, node) && CacheOk(s, u) && u != t
    ensures CacheOk(s', u)
  {
    HoldsMoved(s.places, s.threads[u].list, InCache(u), node, s'.places[node]);
    LinkedUpdate(s.threads[u].top, s.localNext, s.threads[u].list, node, s'.localNext[node]);
  }

  /** The top of the stack is not a node that anyone is pushing. */
  lemma TopInStack(s: State)
    requires StackOk(s) && s.top.Some?
    ensures s.stack != [] && s.stack[0] == s.top.value < |s.places| && s.places[s.top.value] == InStack
  {
    assert s.stack != [] && s.stack[0] in s.stack;
  }

  lemma OtherView(s: State, s': State, t: ThreadId, node: NodeId, u: ThreadId)
    requires Frame(s, s', t, node) && StackOk(s) && ViewOk(s, u) && u != t
    ensures ViewOk(s', u)
  {
    if s.top.Some? {
      TopInStack(s);
    }
  }

  lemma FrameInv(s: State, s': State, t: ThreadId, node: NodeId)
    requires Inv(s) && Frame(s, s', t, node) && StackOk(s')
    requires CacheOk(s', t) && ViewOk(s', t) && NodeOk(s', node)
    ensures Inv(s')
  {
    forall u | AnyThread(u) && 0 <= u < |s.threads| && u != t ensures CacheOk(s', u) && ViewOk(s', u) {
      OtherCache(s, s', t, node, u);
      OtherView(s, s', t, node, u);
    }
  }

  /** Steps of a thread that changes nothing but what it has read. */
  lemma LocalInv(s: State, s': State, t: ThreadId)
    requires Inv(s) && t < |s.threads| == |s'.threads| && s' == s.(threads := s.threads[t := s'.threads[t]])
    requires s'.threads[t] == s.threads[t].(pc := s'.threads[t].pc, closing := s'.threads[t].closing)
    requires s.threads[t].closing ==> s'.threads[t].closing
    requires ViewOk(s', t) && InFlight(s'.threads[t].pc) == InFlight(s.threads[t].pc)
    ensures Inv(s')
  {
    assert AnyThread(t);
  }

  /** A list loses its first node. */
  lemma Shorter(list: seq<NodeId>, next: seq<Option<NodeId>>, top: Option<NodeId>)
    requires Linked(top, next, list) && top.Some?
    ensures list != [] && list[0] == top.value < |next| && Rest(list) == list[1..]
    ensures Linked(next[list[0]], next, Rest(list))
  {
  }

  lemma TakeFromCache(s: State, s': State, t: ThreadId, to: Place, pc: Pc, size: int, closing: bool)
    requires Inv(s) && t < |s.threads| && s.threads[t].top.Some? && s.threads[t].pc == Idle
    requires to == Held || to == InPush(t)
    requires s.threads[t].top.value < |s.localNext|
    requires var th, node := s.threads[t], s.threads[t].top.value;
             s' == s.(threads := s.threads[t := Thread(pc, s.localNext[node], size, th.max, closing, Rest(th.list))],
                      places := if node < |s.places| then s.places[node := to] else s.places)
    requires !closing ==> !s.threads[t].closing && size == s.threads[t].size - 1
    requires if to == Held then pc == Allocated(s.threads[t].top.value) else pc == PushCount(s.threads[t].top.value)
    ensures Inv(s')
  {
    assert AnyThread(t);
    var th := s.threads[t];
    Shorter(th.list, s.localNext, th.top);
    HoldsPop(s.places, th.list, InCache(t), to);
    HoldsMoved(s.places, s.stack, InStack, th.top.value, to);
    FrameInv(s, s', t, th.top.value);
  }

  lemma AllocInv(s: State, s': State, t: ThreadId)
    requires Inv(s) && DoAlloc(s, s', t)
    ensures Inv(s')
  {
    assert AnyThread(t);
    match s.threads[t].top
    case None => LocalInv(s, s', t);
    case Some(node) => TakeFromCache(s, s', t, Held, Allocated(node), s.threads[t].size - 1, false);
  }

  lemma CloseInv(s: State, s': State, t: ThreadId)
    requires Inv(s) && DoClose(s, s', t)
    ensures Inv(s')
  {
    assert AnyThread(t);
    match s.threads[t].top
    case None => LocalInv(s, s', t);
    case Some(node) => TakeFromCache(s, s', t, InPush(t), PushCount(node), s.threads[t].size, true);
  }

  lemma FreeInv(s: State, s': State, t: ThreadId, node: NodeId)
    requires Inv(s) && DoFree(s, s', t, node)
    ensures Inv(s')
  {
    assert AnyThread(t);
    var th := s.threads[t];
    HoldsMoved(s.places, s.stack, InStack, node, s'.places[node]);
    if th.size == th.max {
      HoldsMoved(s.places, th.list, InCache(t), node, InPush(t));
    } else {
      HoldsPush(s.places, th.list, InCache(t), node);
      LinkedUpdate(th.top, s.localNext, th.list, node, th.top);
      LinkedPush(th.top, s'.localNext, th.list, node);
    }
    FrameInv(s, s', t, node);
  }

  lemma PopCasInv(s: State, s': State, t: ThreadId, choice: Choice)
    requires Inv(s) && t < |s.threads| && s.threads[t].pc.PopCas? && PopSteps(s, s', t, choice)
    requires s.top == Some(s.threads[t].pc.node) && s.count == s.threads[t].pc.count
    ensures Inv(s')
  {
    assert AnyThread(t);
    var node := s.threads[t].pc.node;
    Shorter(s.stack, s.next, s.top);
    HoldsPop(s.places, s.stack, InStack, Held);
    HoldsMoved(s.places, s.threads[t].list, InCache(t), node, Held);
    FrameInv(s, s', t, node);
  }

  lemma PushCasInv(s: State, s': State, t: ThreadId)
    requires Inv(s) && t < |s.threads| && s.threads[t].pc.PushCas? && PushSteps(s, s', t)
    requires s.top == s.threads[t].pc.top && s.count == s.threads[t].pc.count
    ensures Inv(s')
  {
    assert AnyThread(t);
    var node := s.threads[t].pc.node;
    HoldsPush(s.places, s.stack, InStack, node);
    LinkedPush(s.top, s.next, s.stack, node);
    HoldsMoved(s.places, s.threads[t].list, InCache(t), node, InStack);
    FrameInv(s, s', t, node);
  }

  lemma PushNextInv(s: State, s': State, t: ThreadId)
    requires Inv(s) && t < |s.threads| && s.threads[t].pc.PushNext? && PushSteps(s, s', t)
    ensures Inv(s')
  {
    assert AnyThread(t);
    var node := s.threads[t].pc.node;
    LinkedUpdate(s.top, s.next, s.stack, node, s.threads[t].pc.top);
    FrameInv(s, s', t, node);
  }

  /** A new node. */
  lemma GrowInv(s: State, s': State, t: ThreadId, choice: Choice)
    requires Inv(s) && t < |s.threads| && s.threads[t].pc == PopEmpty && choice != OutOfMemory
    requires PopSteps(s, s', t, choice)
    ensures Inv(s')
  {
    LinkedExtend(s.top, s.next, s.stack);
    forall u | AnyThread(u) && 0 <= u < |s.threads| ensures CacheOk(s', u) && ViewOk(s', u) {
      LinkedExtend(s.threads[u].top, s.localNext, s.threads[u].list);
    }
    forall n | AnyNode(n) && 0 <= n < |s'.places| ensures NodeOk(s', n) {
    }
  }

  lemma PopView(s: State, s': State, t: ThreadId, choice: Choice)
    requires StackOk(s) && ViewOk(s, t) && PopSteps(s, s', t, choice) && s'.count == s.count
    requires |s'.places| == |s.places|
    ensures ViewOk(s', t)
  {
    if s.top.Some? {
      TopInStack(s);
    }
  }

  lemma PopInv(s: State, s': State, t: ThreadId, choice: Choice)
    requires Inv(s) && PopSteps(s, s', t, choice)
    ensures Inv(s')
  {
    assert AnyThread(t);
    var pc := s.threads[t].pc;
    if pc.PopCas? && s.top == Some(pc.node) && s.count == pc.count {
      PopCasInv(s, s', t, choice);
    } else if pc == PopEmpty && choice != OutOfMemory {
      GrowInv(s, s', t, choice);
    } else {
      PopView(s, s', t, choice);
      LocalInv(s, s', t);
    }
  }

  lemma PushInv(s: State, s': State, t: ThreadId)
    requires Inv(s) && PushSteps(s, s', t)
    ensures Inv(s')
  {
    assert AnyThread(t);
    match s.threads[t].pc
    case PushNext(_, _, _) => PushNextInv(s, s', t);
    case PushCas(_, top, count) =>
      if s.top == top && s.count == count {
        PushCasInv(s, s', t);
      } else {
        LocalInv(s, s', t);
      }
    case _ => LocalInv(s, s', t);
  }

  lemma NextInv(s: State, s': State, t: ThreadId, choice: Choice)
    requires Inv(s) && Next(s, s', t, choice)
    ensures Inv(s')
  {
    match s.threads[t].pc
    case Idle =>
      if choice == Alloc {
        AllocInv(s, s', t);
      } else if choice == Close {
        CloseInv(s, s', t);
      } else {
        FreeInv(s, s', t, choice.node);
      }
    case PushCount(_) | PushTop(_, _) | PushNext(_, _, _) | PushCas(_, _, _) => PushInv(s, s', t);
    case _ => PopInv(s, s', t, choice);
  }

  // ---------------------------------------------------------------------------------------------
  // Every run
  // ---------------------------------------------------------------------------------------------

  datatype Step = Step(t: ThreadId, choice: Choice)

  ghost predicate IsRun(states: seq<State>, steps: seq<Step>) {
    && |states| == |steps| + 1
    && Init(states[0])
    && forall i {:trigger steps[i]} :: 0 <= i < |steps| ==> Next(states[i], states[i + 1], steps[i].t, steps[i].choice)
  }

  lemma {:induction false} RunInv(states: seq<State>, steps: seq<Step>, i: nat)
    requires IsRun(states, steps) && i < |states|
    ensures Inv(states[i])
  {
    if i == 0 {
      InitInv(states[0]);
    } else {
      RunInv(states, steps, i - 1);
      NextInv(states[i - 1], states[i], steps[i - 1].t, steps[i - 1].choice);
    }
  }

  /** What the step does to the stack that the nodes make up. */
  ghost predicate StackEffect(s: State, s': State, t: ThreadId)
    requires t < |s.threads| == |s'.threads|
  {
    match (s.threads[t].pc, s'.threads[t].pc)
    case (PopCas(node, _, _), Allocated(taken)) =>
      taken == node && s.stack != [] && s.stack[0] == node && s'.stack == s.stack[1..]
    case (PushCas(node, _, _), Idle) => s'.stack == [node] + s.stack
    case (PopTop(_), PopNext(None, _)) => s.stack == [] && s'.stack == []
    case (PopCas(_, _, _), PopNext(None, _)) => s.stack == [] && s'.stack == []
    case _ => s'.stack == s.stack
  }

  lemma PopEffect(s: State, s': State, t: ThreadId, choice: Choice)
    requires StackOk(s) && PopSteps(s, s', t, choice)
    ensures |s'.threads| == |s.threads| && StackEffect(s, s', t)
  {
    if s.top.Some? {
      Shorter(s.stack, s.next, s.top);
    }
  }

  lemma PushEffect(s: State, s': State, t: ThreadId)
    requires PushSteps(s, s', t)
    ensures |s'.threads| == |s.threads| && StackEffect(s, s', t)
  {
  }

  lemma StepEffect(s: State, s': State, t: ThreadId, choice: Choice)
    requires Inv(s) && Next(s, s', t, choice)
    ensures |s'.threads| == |s.threads| && StackEffect(s, s', t)
  {
    match s.threads[t].pc
    case Idle =>
    case PushCount(_) | PushTop(_, _) | PushNext(_, _, _) | PushCas(_, _, _) => PushEffect(s, s', t);
    case _ => PopEffect(s, s', t, choice);
  }

  /**
   * The stack is a sequential one: a push takes effect at its CAS and puts its node on top, a pop takes
   * effect at its CAS and takes the node that is on top at that moment, however often nodes were
   * recycled since it read them, and a pop that finds nothing read the top when the stack was empty.
   */
  lemma RefinesStack(states: seq<State>, steps: seq<Step>, i: nat)
    requires IsRun(states, steps) && i < |steps|
    ensures steps[i].t < |states[i].threads| == |states[i + 1].threads|
    ensures StackEffect(states[i], states[i + 1], steps[i].t)
    ensures Linked(states[i].top, states[i].next, states[i].stack)
  {
    RunInv(states, steps, i);
    StepEffect(states[i], states[i + 1], steps[i].t, steps[i].choice);
  }

  /** The node is in the stack, in a thread's cache or on a thread's way to the stack. */
  predicate In(s: State, n: NodeId, place: Place) {
    match place
    case Held => false
    case InStack => n in s.stack
    case InCache(t) => t < |s.threads| && n in s.threads[t].list
    case InPush(t) => t < |s.threads| && InFlight(s.threads[t].pc) == Some(n)
  }

  /** Every node is in exactly one place, and there once; a node that is in none is in a caller's hands. */
  lemma OnePlace(states: seq<State>, steps: seq<Step>, i: nat, n: NodeId, place: Place)
    requires IsRun(states, steps) && i < |states| && n < |states[i].places| && place != Held
    ensures In(states[i], n, place) <==> states[i].places[n] == place
    ensures Distinct(states[i].stack)
    ensures place.InCache? && place.t < |states[i].threads| ==> Distinct(states[i].threads[place.t].list)
  {
    RunInv(states, steps, i);
    assert AnyNode(n);
    match place
    case InCache(t) => assert AnyThread(t);
    case InPush(t) => assert AnyThread(t);
    case _ =>
  }

  /**
   * No double allocation: a node that a call of fev_simple_mpmc_pool_alloc_local() takes was in no caller's
   * hands before, or is new, and it is in a caller's hands after.
   */
  lemma AllocatedOnce(states: seq<State>, steps: seq<Step>, i: nat, n: NodeId)
    requires IsRun(states, steps) && i < |steps| && steps[i].t < |states[i].threads|
    requires steps[i].t < |states[i + 1].threads| && states[i + 1].threads[steps[i].t].pc == Allocated(n)
    ensures n < |states[i].places| ==> states[i].places[n] != Held
    ensures n < |states[i + 1].places| && states[i + 1].places[n] == Held
  {
    RunInv(states, steps, i);
    TakesNode(states[i], states[i + 1], steps[i].t, steps[i].choice, n);
  }

  lemma TakesFromCache(s: State, s': State, t: ThreadId, n: NodeId)
    requires CacheOk(s, t) && DoAlloc(s, s', t) && s'.threads[t].pc == Allocated(n)
    ensures n < |s.places| && s.places[n] != Held && n < |s'.places| && s'.places[n] == Held
  {
    Shorter(s.threads[t].list, s.localNext, s.threads[t].top);
    assert s.threads[t].list[0] in s.threads[t].list;
  }

  lemma TakesFromStack(s: State, s': State, t: ThreadId, choice: Choice, n: NodeId)
    requires StackOk(s) && PopSteps(s, s', t, choice) && s.threads[t].pc.PopCas? && s'.threads[t].pc == Allocated(n)
    ensures n < |s.places| && s.places[n] != Held && n < |s'.places| && s'.places[n] == Held
  {
    TopInStack(s);
  }

  lemma TakesNode(s: State, s': State, t: ThreadId, choice: Choice, n: NodeId)
    requires Inv(s) && Next(s, s', t, choice) && t < |s'.threads| && s'.threads[t].pc == Allocated(n)
    ensures n < |s.places| ==> s.places[n] != Held
    ensures n < |s'.places| && s'.places[n] == Held
  {
    assert AnyThread(t);
    if s.threads[t].pc.PopCas? {
      TakesFromStack(s, s', t, choice, n);
    } else if s.threads[t].pc == Idle {
      TakesFromCache(s, s', t, n);
    }
  }

  /** A node leaves a caller's hands only by being freed. */
  lemma HeldUntilFreed(states: seq<State>, steps: seq<Step>, i: nat, n: NodeId)
    requires IsRun(states, steps) && i < |steps| && n < |states[i].places| && states[i].places[n] == Held
    ensures n < |states[i + 1].places|
    ensures states[i + 1].places[n] == Held || steps[i].choice == Free(n)
  {
    RunInv(states, steps, i);
    StaysHeld(states[i], states[i + 1], steps[i].t, steps[i].choice, n);
  }

  lemma StaysHeld(s: State, s': State, t: ThreadId, choice: Choice, n: NodeId)
    requires Inv(s) && Next(s, s', t, choice) && n < |s.places| && s.places[n] == Held
    ensures n < |s'.places| && (s'.places[n] == Held || choice == Free(n))
  {
    assert AnyThread(t);
    if s.threads[t].pc == Idle && choice == Close && s.threads[t].top.Some? {
      Shorter(s.threads[t].list, s.localNext, s.threads[t].top);
      assert s.threads[t].list[0] in s.threads[t].list;
    }
  }

  /** cur_size is the length of the local list and at most max_size, and 0 when the list is empty. */
  lemma CacheSize(states: seq<State>, steps: seq<Step>, i: nat, t: ThreadId)
    requires IsRun(states, steps) && i < |states| && t < |states[i].threads| && !states[i].threads[t].closing
    ensures var th := states[i].threads[t];
            && th.size == |th.list| <= th.max && (th.top == None ==> th.size == 0)
            && Linked(th.top, states[i].localNext, th.list)
  {
    RunInv(states, steps, i);
    assert AnyThread(t);
  }

  // ---------------------------------------------------------------------------------------------
  // 64-bit counts
  // ---------------------------------------------------------------------------------------------

  /** Fewer than 2^64 operations on the stack have succeeded since the thread loaded the count. */
  predicate Recent(s: State, t: ThreadId) {
    t < |s.threads| ==>
      match s.threads[t].pc
      case PopCas(_, _, count) => s.count - count < TAGS
      case PushCas(_, _, count) => s.count - count < TAGS
      case _ => true
  }

  lemma TagExact(a: nat, b: nat)
    requires b <= a < b + TAGS
    ensures Tag(false, a) == Tag(false, b) <==> a == b
  {
  }

  lemma Step64(s: State, s': State, t: ThreadId, choice: Choice)
    requires Inv(s) && Recent(s, t)
    ensures NextAs(false, s, s', t, choice) <==> Next(s, s', t, choice)
  {
    if t < |s.threads| {
      assert AnyThread(t);
      match s.threads[t].pc
      case PopCas(_, _, count) => TagExact(s.count, count);
      case PushCas(_, _, count) => TagExact(s.count, count);
      case _ =>
    }
  }

  ghost predicate IsRun64(states: seq<State>, steps: seq<Step>) {
    && |states| == |steps| + 1
    && Init(states[0])
    && forall i {:trigger steps[i]} :: 0 <= i < |steps| ==>
         NextAs(false, states[i], states[i + 1], steps[i].t, steps[i].choice)
  }

  ghost predicate AllRecent(states: seq<State>, steps: seq<Step>)
    requires |states| == |steps| + 1
  {
    forall i {:trigger steps[i]} :: 0 <= i < |steps| ==> Recent(states[i], steps[i].t)
  }

  /**
   * The code with its 64-bit counts does what the model does: a run in which no thread sleeps through 2^64
   * operations between its load of the count and its CAS is a run of the model.
   */
  lemma {:induction false} Run64(states: seq<State>, steps: seq<Step>)
    requires IsRun64(states, steps) && AllRecent(states, steps)
    ensures IsRun(states, steps)
  {
    if steps != [] {
      var n := |steps| - 1;
      var before, sofar := states[..n + 1], steps[..n];
      forall i {:trigger sofar[i]} | 0 <= i < n
        ensures NextAs(false, before[i], before[i + 1], sofar[i].t, sofar[i].choice)
        ensures Recent(before[i], sofar[i].t)
      {
        assert sofar[i] == steps[i];
      }
      Run64(before, sofar);
      RunInv(before, sofar, n);
      Step64(states[n], states[n + 1], steps[n].t, steps[n].choice);
      forall i {:trigger steps[i]} | 0 <= i < |steps|
        ensures Next(states[i], states[i + 1], steps[i].t, steps[i].choice)
      {
        if i < n {
          assert sofar[i] == steps[i];
        }
      }
    }
  }
}
