/**
 * The binary heap of timers (src/fev_timers_binheap.c, src/fev_timers_binheap.h) and the loop that
 * takes the expired timers out of it (src/fev_timers.c:106-142).
 *
 * Each timer knows its place in the heap, so that it can be deleted from the middle.
 */
module TimerHeap {
  import opened Time

  /** SIZE_MAX, the index of a timer that has expired. */
  const EXPIRED: nat := 0xFFFF_FFFF_FFFF_FFFF
  const MAX_CAPACITY: nat := EXPIRED / 8
  const ENOMEM: int := 12

  class Timer {
    const deadline: Time
    var index: nat

    constructor (deadline: Time)
      ensures this.deadline == deadline
    {
      this.deadline := deadline;
      index := 0;
    }

    predicate IsExpired()
      reads this
    {
      index == EXPIRED
    }
  }

  // ---------------------------------------------------------------------------------------------
  // Heap order, on sequences of timers
  // ---------------------------------------------------------------------------------------------

  function Parent(i: int): (p: nat)
    requires i > 0
    ensures p < i && (i == 2 * p + 1 || i == 2 * p + 2)
  {
    (i - 1) / 2
  }

  /** fev_timers_cmp(a, b) <= 0 */
  predicate Le(a: Timer, b: Timer) {
    Cmp(a.deadline, b.deadline) <= 0
  }

  predicate Edge(h: seq<Timer>, i: int) {
    0 < i < |h| && Le(h[Parent(i)], h[i])
  }

  ghost predicate IsHeap(h: seq<Timer>) {
    forall i :: 0 < i < |h| ==> Edge(h, i)
  }

  // The conditions below are used only at the places a proof names with this.
  predicate AnyPlace(i: int) { true }

  /** The children of `hole` are not below its parent. */
  ghost predicate Skips(h: seq<Timer>, hole: nat) {
    forall i {:trigger AnyPlace(i)} :: AnyPlace(i) && 0 < i < |h| && Parent(i) == hole > 0 ==>
      hole < |h| && Le(h[Parent(hole)], h[i])
  }

  /** A heap, but that the timer at `hole` may have to go up. */
  ghost predicate UpHeap(h: seq<Timer>, hole: nat) {
    && (forall i :: 0 < i < |h| && i != hole ==> Edge(h, i))
    && Skips(h, hole)
  }

  /** A heap, but that the timer at `hole` may have to go down, or up if it is still at `start`. */
  ghost predicate DownHeap(h: seq<Timer>, hole: nat, start: nat) {
    && (forall i {:trigger Edge(h, i)} :: 0 < i < |h| && Parent(i) != hole && (i != start || hole != start) ==>
          Edge(h, i))
    && Skips(h, hole)
  }

  function Swap(h: seq<Timer>, i: nat, j: nat): (r: seq<Timer>)
    requires i < |h| && j < |h|
    ensures |r| == |h|
  {
    h[i := h[j]][j := h[i]]
  }

  lemma SwapKeeps(h: seq<Timer>, i: nat, j: nat)
    requires i < |h| && j < |h|
    ensures forall x :: x in Swap(h, i, j) <==> x in h
  {
    var r := Swap(h, i, j);
    forall k | 0 <= k < |h| ensures h[k] in r && r[k] in h {
      var l := if k == i then j else if k == j then i else k;
      assert r[l] == h[k] && h[l] == r[k];
    }
  }

  lemma {:induction false} RootIsMin(h: seq<Timer>, i: nat)
    requires IsHeap(h) && i < |h|
    ensures Le(h[0], h[i])
  {
    if i > 0 {
      assert Edge(h, i);
      RootIsMin(h, Parent(i));
    }
  }

  lemma UpStep(h: seq<Timer>, hole: nat)
    requires UpHeap(h, hole) && 0 < hole < |h| && !Edge(h, hole)
    ensures UpHeap(Swap(h, hole, Parent(hole)), Parent(hole))
  {
    var p := Parent(hole);
    var r := Swap(h, hole, p);
    forall i | 0 < i < |r| && i != p ensures Edge(r, i) {
      assert AnyPlace(i);
      if i != hole {
        assert Edge(h, i);
      }
    }
    forall i | 0 < i < |r| && Parent(i) == p > 0 ensures Le(r[Parent(p)], r[i]) {
      assert Edge(h, p);
      if i != hole {
        assert Edge(h, i);
      }
    }
  }

  lemma UpEnds(h: seq<Timer>, hole: nat)
    requires UpHeap(h, hole) && hole < |h| && (hole == 0 || Edge(h, hole))
    ensures IsHeap(h)
  {
  }

  lemma DownStep(h: seq<Timer>, hole: nat, start: nat, child: nat)
    requires DownHeap(h, hole, start) && start <= hole < |h| && child < |h|
    requires child > 0 && Parent(child) == hole && !Le(h[hole], h[child])
    requires forall i :: 0 < i < |h| && Parent(i) == hole ==> Le(h[child], h[i])
    ensures DownHeap(Swap(h, hole, child), child, start)
  {
    var r := Swap(h, hole, child);
    forall i | 0 < i < |r| && Parent(i) != child && (i != start || child != start) ensures Edge(r, i) {
      if i == child {
        assert r[i] == h[hole] && r[Parent(i)] == h[child];
      } else if i == hole {
        assert AnyPlace(child) && r[i] == h[child] && r[Parent(i)] == h[Parent(hole)];
      } else if Parent(i) == hole {
        assert r[i] == h[i] && r[Parent(i)] == h[child];
      } else {
        assert Edge(h, i);
      }
    }
    forall i | 0 < i < |r| && Parent(i) == child ensures Le(r[Parent(child)], r[i]) {
      assert Edge(h, i);
    }
  }

  lemma DownEnds(h: seq<Timer>, hole: nat, start: nat)
    requires DownHeap(h, hole, start) && start <= hole < |h|
    requires forall i :: 0 < i < |h| && Parent(i) == hole ==> Le(h[hole], h[i])
    ensures UpHeap(h, start)
    ensures start == 0 ==> IsHeap(h)
  {
    forall i | 0 < i < |h| && i != start ensures Edge(h, i) {
      if Parent(i) == hole {
        assert Le(h[hole], h[i]);
      }
    }
    if hole != start {
      forall i | 0 < i < |h| && Parent(i) == start > 0 ensures Le(h[Parent(start)], h[i]) {
        assert Edge(h, start) && Edge(h, i);
      }
    }
  }

  lemma TwoEdges(h: seq<Timer>, i: int)
    requires IsHeap(h) && 0 < i < |h| && Parent(i) > 0
    ensures Le(h[Parent(Parent(i))], h[i])
  {
    assert Edge(h, i) && Edge(h, Parent(i));
  }

  /** Taking a timer out and the last one off leaves a hole that the last one may fill. */
  lemma DownBegins(h: seq<Timer>, start: nat, r: seq<Timer>)
    requires IsHeap(h) && start < |h| - 1 && r == h[..|h| - 1][start := h[|h| - 1]]
    ensures DownHeap(r, start, start)
  {
    forall i | 0 < i < |r| && Parent(i) != start && i != start ensures Edge(r, i) {
      assert Edge(h, i) && r[i] == h[i] && r[Parent(i)] == h[Parent(i)];
    }
    forall i | 0 < i < |r| && Parent(i) == start > 0 ensures Le(r[Parent(start)], r[i]) {
      TwoEdges(h, i);
      assert r[i] == h[i] && r[Parent(start)] == h[Parent(start)];
    }
  }

  lemma AppendUp(h: seq<Timer>, t: Timer)
    requires IsHeap(h)
    ensures UpHeap(h + [t], |h|)
  {
    forall i | 0 < i < |h + [t]| && i != |h| ensures Edge(h + [t], i) {
      assert Edge(h, i);
    }
  }

  // ---------------------------------------------------------------------------------------------
  // Sifting in place
  // ---------------------------------------------------------------------------------------------

  /** Every timer but the one at `hole` knows where it is. */
  ghost predicate Indexed(h: seq<Timer>, hole: int)
    reads h
  {
    forall i :: 0 <= i < |h| && i != hole ==> h[i].index == i
  }

  /** Puts `timer` at `at`; after that the place `hole` is to be filled, if there is one. */
  method Place(heap: array<Timer>, at: nat, timer: Timer, ghost hole: nat, ghost n: nat)
    requires at < n <= heap.Length && Indexed(heap[..n], at)
    requires forall i {:trigger AnyPlace(i)} :: AnyPlace(i) && 0 <= i < n && i != at && i != hole ==> heap[i] != timer
    modifies heap, timer
    ensures heap[..n] == old(heap[..n])[at := timer] && heap[n..] == old(heap[n..])
    ensures Indexed(heap[..n], hole)
  {
    heap[at] := timer;
    timer.index := at;
    forall i | 0 <= i < n && i != hole ensures heap[i].index == i {
      assert AnyPlace(i);
    }
  }

  /** The timers of the heap while `timer` has yet to be put at `hole`. */
  ghost function View(h: seq<Timer>, hole: nat, timer: Timer): seq<Timer>
    requires hole < |h|
  {
    h[hole := timer]
  }

  /** The two sequences are made of the same timers. */
  ghost predicate Same(a: seq<Timer>, b: seq<Timer>) {
    (forall x :: x in a ==> x in b) && (forall x :: x in b ==> x in a)
  }

  /** Moving the timer at `from` into the hole exchanges the two in the view. */
  lemma ViewMoves(h: seq<Timer>, hole: nat, from: nat, timer: Timer)
    requires hole < |h| && from < |h| && hole != from
    ensures View(h[hole := h[from]], from, timer) == Swap(View(h, hole, timer), hole, from)
    ensures Same(View(h[hole := h[from]], from, timer), View(h, hole, timer))
  {
    SwapKeeps(View(h, hole, timer), hole, from);
  }

  /** What holds while a timer goes up, relative to the heap `h0` in which it is to be put at `start`. */
  ghost predicate GoingUp(h: seq<Timer>, hole: nat, timer: Timer, h0: seq<Timer>, start: nat) {
    && hole <= start < |h| == |h0| && UpHeap(View(h, hole, timer), hole)
    && Same(View(h, hole, timer), View(h0, start, timer))
    && (forall i {:trigger AnyPlace(i)} :: AnyPlace(i) && 0 <= i < |h| && i != hole ==>
          h[i] != timer && (i < start ==> h[i] in h0[..start]))
    && (if hole == 0 then start == 0 || !Le(h0[0], timer) else h[0] == h0[0])
  }

  lemma UpMoves(h: seq<Timer>, hole: nat, timer: Timer, h0: seq<Timer>, start: nat)
    requires GoingUp(h, hole, timer, h0, start) && 0 < hole && !Le(h[Parent(hole)], timer)
    ensures GoingUp(h[hole := h[Parent(hole)]], Parent(hole), timer, h0, start)
  {
    assert AnyPlace(Parent(hole));
    UpStep(View(h, hole, timer), hole);
    ViewMoves(h, hole, Parent(hole), timer);
  }

  lemma UpDone(h: seq<Timer>, hole: nat, timer: Timer, h0: seq<Timer>, start: nat)
    requires GoingUp(h, hole, timer, h0, start) && (hole == 0 || Le(h[Parent(hole)], timer))
    ensures var r := View(h, hole, timer);
            && IsHeap(r) && r[0] == if start == 0 || !Le(h0[0], timer) then timer else h0[0]
  {
    var r := View(h, hole, timer);
    assert hole > 0 ==> Edge(r, hole);
    UpEnds(r, hole);
    RootIsMin(r, hole);
  }

  /**
   * fev_timers_sift_up(): puts `timer` into the heap of `n` timers at `start` or above. The order holds
   * before, but for that place.
   */
  method SiftUp(heap: array<Timer>, start: nat, timer: Timer, ghost n: nat)
    requires start < n <= heap.Length
    requires Indexed(heap[..n], start)
    requires forall i {:trigger AnyPlace(i)} :: AnyPlace(i) && 0 <= i < n && i != start ==> heap[i] != timer
    requires UpHeap(heap[..n][start := timer], start)
    modifies heap, heap[..start], timer
    ensures Indexed(heap[..n], n) && IsHeap(heap[..n])
    ensures Same(heap[..n], old(heap[..n])[start := timer])
    ensures heap[n..] == old(heap[n..])
    ensures heap[0] == if start == 0 || !Le(old(heap[0]), timer) then timer else old(heap[0])
  {
    var index := start;
    ghost var h0 := heap[..n];
    assert h0[..start] == heap[..start];
    while index > 0 && Cmp(heap[Parent(index)].deadline, timer.deadline) > 0
      invariant 0 <= index <= start && Indexed(heap[..n], index) && GoingUp(heap[..n], index, timer, h0, start)
      invariant heap[n..] == old(heap[n..])
    {
      var parent := Parent(index);
      UpMoves(heap[..n], index, timer, h0, start);
      assert AnyPlace(parent) && heap[..n][parent] in h0[..start];
      Place(heap, index, heap[parent], parent, n);
      index := parent;
    }
    UpDone(heap[..n], index, timer, h0, start);
    Place(heap, index, timer, n, n);
  }

  /** What holds while `last` goes down, relative to the heap `h0` that loses its timer at `start`. */
  ghost predicate GoingDown(h: seq<Timer>, hole: nat, last: Timer, h0: seq<Timer>, start: nat) {
    && start <= hole < |h| == |h0| - 1 && DownHeap(View(h, hole, last), hole, start)
    && Same(View(h, hole, last), h0[..|h|][start := last])
    && (forall i {:trigger AnyPlace(i)} :: AnyPlace(i) && 0 <= i < |h| && i != hole ==> h[i] != last && h[i] in h0)
    && (start > 0 ==> h[0] == h0[0])
  }

  /** `child` is the smaller child of `hole`, or the only one. */
  ghost predicate Smaller(h: seq<Timer>, hole: nat, child: nat) {
    && 0 < child < |h| && Parent(child) == hole
    && forall i {:trigger AnyPlace(i)} :: AnyPlace(i) && 0 < i < |h| && Parent(i) == hole ==> Le(h[child], h[i])
  }

  lemma DownMoves(h: seq<Timer>, hole: nat, child: nat, last: Timer, h0: seq<Timer>, start: nat)
    requires GoingDown(h, hole, last, h0, start) && Smaller(h, hole, child) && !Le(last, h[child])
    ensures GoingDown(h[hole := h[child]], child, last, h0, start)
  {
    assert AnyPlace(child);
    forall i | 0 < i < |h| && Parent(i) == hole ensures Le(h[child], h[i]) {
      assert AnyPlace(i);
    }
    DownStep(View(h, hole, last), hole, start, child);
    ViewMoves(h, hole, child, last);
  }

  lemma DownDone(h: seq<Timer>, hole: nat, last: Timer, h0: seq<Timer>, start: nat)
    requires GoingDown(h, hole, last, h0, start)
    requires 2 * hole + 1 >= |h| || exists child: nat :: Smaller(h, hole, child) && Le(last, h[child])
    ensures UpHeap(View(h, hole, last), start) && (start == 0 ==> IsHeap(View(h, hole, last)))
    ensures start > 0 ==> View(h, hole, last)[0] == h0[0]
  {
    forall i | 0 < i < |h| && Parent(i) == hole ensures Le(last, h[i]) {
      assert AnyPlace(i);
    }
    DownEnds(View(h, hole, last), hole, start);
  }

  lemma DownStarts(h0: seq<Timer>, start: nat, n: nat)
    requires IsHeap(h0) && n == |h0| - 1 && start < n && forall i :: 0 <= i < n ==> h0[i] != h0[n]
    ensures GoingDown(h0[..n], start, h0[n], h0, start)
  {
    DownBegins(h0, start, View(h0[..n], start, h0[n]));
  }

  /** The smaller child of `hole`. */
  method SmallerChild(heap: array<Timer>, n: nat, hole: nat) returns (child: nat)
    requires 2 * hole + 1 < n <= heap.Length
    ensures Smaller(heap[..n], hole, child)
  {
    child := 2 * hole + 1;
    var right := child + 1;
    if right < n && Cmp(heap[right].deadline, heap[child].deadline) < 0 {
      child := right;
    }
  }

  /** `r` is made of the timers of `h` but the one at `start`. */
  ghost predicate Without(h: seq<Timer>, start: nat, r: seq<Timer>) {
    && start < |h|
    && (forall x :: x in r ==> x in h && x != h[start])
    && (forall x :: x in h ==> x == h[start] || x in r)
  }

  ghost predicate Different(h: seq<Timer>) {
    forall i, j :: 0 <= i < j < |h| ==> h[i] != h[j]
  }

  lemma LastTakesPlace(h: seq<Timer>, start: nat, r: seq<Timer>)
    requires Different(h) && start < |h|
    requires if start == |h| - 1 then r == h[..|h| - 1] else Same(r, h[..|h| - 1][start := h[|h| - 1]])
    ensures Without(h, start, r)
  {
    var n := |h| - 1;
    var p := if start == n then h[..n] else h[..n][start := h[n]];
    forall i | 0 <= i < |h| ensures h[i] == h[start] || h[i] in p {
      if i == n != start {
        assert p[start] == h[i];
      } else if i != start {
        assert p[i] == h[i];
      }
    }
    forall i | 0 <= i < |p| ensures p[i] in h && p[i] != h[start] {
    }
  }

  lemma SameWithout(h: seq<Timer>, start: nat, r: seq<Timer>, s: seq<Timer>)
    requires Without(h, start, r) && Same(s, r)
    ensures Without(h, start, s)
  {
  }

  lemma ShorterHeap(h: seq<Timer>, n: nat)
    requires IsHeap(h) && n <= |h|
    ensures IsHeap(h[..n])
  {
    forall i | 0 < i < n ensures Edge(h[..n], i) {
      assert Edge(h, i);
    }
  }

  /** The loop of fev_timers_sift_down(): `last` goes into the hole at `start` or below it. */
  method Sink(heap: array<Timer>, n: nat, start: nat, last: Timer, ghost h0: seq<Timer>)
    requires n < heap.Length && Indexed(heap[..n], start) && GoingDown(heap[..n], start, last, h0, start)
    requires last in h0
    modifies heap, h0
    ensures Indexed(heap[..n], n) && UpHeap(heap[..n], start) && Same(heap[..n], h0[..n][start := last])
    ensures if start == 0 then IsHeap(heap[..n]) else heap[0] == h0[0]
  {
    var hole := start;
    while n >= 2 && (n - 2) / 2 >= hole
      invariant Indexed(heap[..n], hole) && GoingDown(heap[..n], hole, last, h0, start)
      decreases n - hole
    {
      var child := SmallerChild(heap, n, hole);
      if Cmp(last.deadline, heap[child].deadline) <= 0 {
        break;
      }
      DownMoves(heap[..n], hole, child, last, h0, start);
      assert AnyPlace(child) && heap[..n][child] in h0;
      Place(heap, hole, heap[child], child, n);
      hole := child;
    }
    ghost var view := View(heap[..n], hole, last);
    DownDone(heap[..n], hole, last, h0, start);
    Place(heap, hole, last, n, n);
    assert heap[..n] == view;
  }

  /**
   * fev_timers_sift_down(): takes the timer at `start` out of the heap of `len` timers. The last timer
   * takes its place or one below it, so that the order holds after, but that it may have to go up.
   */
  method SiftDown(heap: array<Timer>, len: nat, start: nat)
    requires start < len <= heap.Length && Indexed(heap[..len], len) && IsHeap(heap[..len])
    modifies heap, heap[..len]
    ensures Indexed(heap[..len - 1], len)
    ensures Without(old(heap[..len]), start, heap[..len - 1])
    ensures if start < len - 1 then UpHeap(heap[..len - 1], start) else IsHeap(heap[..len - 1])
    ensures start == 0 ==> IsHeap(heap[..len - 1])
    ensures start > 0 ==> heap[0] == old(heap[0])
  {
    ghost var h0 := heap[..len];
    var n := len - 1;
    if start == n {
      LastTakesPlace(h0, start, h0[..n]);
      ShorterHeap(h0, n);
      assert heap[..n] == h0[..n];
      return;
    }
    DownStarts(h0, start, n);
    assert heap[..n] == h0[..n] && h0[n] in h0;
    assert Different(h0);
    Sink(heap, n, start, heap[n], h0);
    LastTakesPlace(h0, start, heap[..n]);
  }

  // ---------------------------------------------------------------------------------------------
  // The heap of a bucket
  // ---------------------------------------------------------------------------------------------

  lemma RootLeAll(h: seq<Timer>, x: Timer)
    requires IsHeap(h) && x in h
    ensures Le(h[0], x)
  {
    var i :| 0 <= i < |h| && h[i] == x;
    RootIsMin(h, i);
  }

  /** The next capacity. */
  function Doubled(capacity: nat): nat {
    if capacity == 0 then 1 else 2 * capacity
  }

  class Bucket {
    var heap: array<Timer>
    var len: nat

    ghost predicate Valid()
      reads this, heap, heap[..]
    {
      len <= heap.Length <= MAX_CAPACITY && Indexed(heap[..len], len) && IsHeap(heap[..len])
    }

    ghost function Contents(): seq<Timer>
      reads this, heap
      requires len <= heap.Length
    {
      heap[..len]
    }

    constructor ()
      ensures Valid() && Contents() == [] && fresh(heap)
    {
      heap := new Timer[0];
      len := 0;
    }

    /** fev_timers_bucket_grow(): doubles the capacity; `oom` says that the allocation fails. */
    method Grow(filler: Timer, oom: bool) returns (ret: int)
      requires Valid() && len == heap.Length
      modifies this`heap
      ensures Valid() && len == old(len) && Contents() == old(Contents())
      ensures ret == 0 || ret == -ENOMEM
      ensures if ret == 0 then fresh(heap) && heap.Length == Doubled(old(heap.Length)) else heap == old(heap)
      ensures ret == 0 <==> !oom && Doubled(old(heap.Length)) <= MAX_CAPACITY
    {
      var capacity := 2 * heap.Length;
      if capacity == 0 {
        capacity := 1;
      }
      if oom || capacity > MAX_CAPACITY {
        return -ENOMEM;
      }
      var n, h := len, heap;
      heap := new Timer[capacity](i requires 0 <= i < capacity reads h => if i < n then h[i] else filler);
      assert heap[..len] == h[..len];
      return 0;
    }

    /** The end of fev_timers_bucket_add(), where there is room for the timer. */
    method Insert(timer: Timer) returns (ret: int)
      requires Valid() && len < heap.Length && timer !in Contents()
      modifies this`len, heap, heap[..len], timer
      ensures Valid() && len == old(len) + 1
      ensures forall x :: x in Contents() <==> x in old(Contents()) || x == timer
      ensures ret == if old(len) == 0 || !Le(old(Contents())[0], timer) then 1 else 0
      ensures Contents()[0] == if ret == 1 then timer else old(Contents())[0]
    {
      ghost var h := heap[..len];
      AppendUp(h, timer);
      assert heap[..len + 1][len := timer] == h + [timer];
      SiftUp(heap, len, timer, len + 1);
      len := len + 1;
      ret := if timer.index == 0 then 1 else 0;
    }

    /**
     * fev_timers_bucket_add(): returns 1 exactly if the timer became the root, which is exactly if it is
     * earlier than all others; on failure nothing changes.
     */
    method Add(timer: Timer, oom: bool) returns (ret: int)
      requires Valid() && timer !in Contents()
      modifies this, heap, heap[..len], timer
      ensures Valid() && (heap == old(heap) || fresh(heap))
      ensures ret == -ENOMEM || ret == 0 || ret == 1
      ensures ret == -ENOMEM ==> Contents() == old(Contents()) && old(len) == old(heap.Length)
      ensures ret >= 0 ==>
                && len == old(len) + 1
                && (forall x :: x in Contents() <==> x in old(Contents()) || x == timer)
                && (ret == 1 <==> old(len) == 0 || !Le(old(Contents())[0], timer))
                && Contents()[0] == if ret == 1 then timer else old(Contents())[0]
    {
      if len == heap.Length {
        ret := Grow(timer, oom);
        if ret != 0 {
          return;
        }
      }
      assert heap[..len] == old(heap[..len]);
      ret := Insert(timer);
    }

    /**
     * fev_timers_bucket_del(): returns 1 exactly if the timer was the root; otherwise the root is the
     * same timer as before.
     */
    method Del(timer: Timer) returns (ret: int)
      requires Valid() && timer in Contents()
      modifies this`len, heap, heap[..len]
      ensures Valid() && len == old(len) - 1
      ensures forall x :: x in Contents() <==> x in old(Contents()) && x != timer
      ensures ret == if old(Contents())[0] == timer then 1 else 0
      ensures ret == 0 ==> len > 0 && Contents()[0] == old(Contents())[0]
    {
      var index := timer.index;
      ghost var k :| 0 <= k < len && heap[..len][k] == timer;
      assert index == k;
      Remove(index);
      ret := if index > 0 then 0 else 1;
    }

    /** Takes out the timer at `index`. */
    method Remove(index: nat)
      requires Valid() && index < len
      modifies this`len, heap, heap[..len]
      ensures Valid() && len == old(len) - 1 && Without(old(Contents()), index, Contents())
      ensures index > 0 ==> Contents()[0] == old(Contents())[0]
    {
      ghost var h := heap[..len];
      SiftDown(heap, len, index);
      len := len - 1;
      if 0 < index < len {
        Raise(index, h);
      }
    }

    /** The second half of a deletion: the timer that came to `index` may have to go up. */
    method Raise(index: nat, ghost h: seq<Timer>)
      requires 0 < index < len <= heap.Length <= MAX_CAPACITY
      requires Indexed(heap[..len], len + 1) && UpHeap(heap[..len], index)
      requires IsHeap(h) && Without(h, index, heap[..len]) && heap[0] == h[0]
      modifies heap, h
      ensures Valid() && Without(h, index, heap[..len]) && heap[0] == h[0]
    {
      ghost var r := heap[..len];
      var timer := heap[index];
      assert r[index := timer] == r && r[index] in r;
      RootLeAll(h, timer);
      forall i | 0 <= i < index ensures heap[..index][i] in h {
        assert r[i] in r;
      }
      SiftUp(heap, index, timer, len);
      SameWithout(h, index, r, heap[..len]);
    }

    /** fev_timers_bucket_del_min() */
    method DelMin()
      requires Valid() && len > 0
      modifies this`len, heap, heap[..len]
      ensures Valid() && len == old(len) - 1
      ensures Without(old(Contents()), 0, Contents())
    {
      SiftDown(heap, len, 0);
      len := len - 1;
    }

    /** One round of the loop: the root is taken out and marked as expired. */
    method ExpireMin(ghost expired: seq<Timer>, ghost h0: seq<Timer>, ghost now: Time) returns (min: Timer)
      requires Valid() && len > 0 && Drained(Contents(), expired, h0, now) && Ns(Contents()[0].deadline) <= Ns(now)
      modifies this`len, heap, heap[..len]
      ensures Valid() && len == old(len) - 1 && min == old(Contents())[0] && min.IsExpired()
      ensures Drained(Contents(), expired + [min], h0, now)
      ensures forall x :: x in expired ==> x.index == old(x.index)
    {
      min := heap[0];
      ghost var h := heap[..len];
      DelMin();
      Drain(h, heap[..len], expired, h0, now);
      min.index := EXPIRED;
    }

    /**
     * The loop of fev_timers_wake_expired() without the wake-ups: takes out exactly the timers that are
     * due, the earliest first, and marks them as expired.
     */
    method TakeExpired(now: Time) returns (expired: seq<Timer>)
      requires Valid()
      modifies this`len, heap, heap[..len]
      ensures Valid() && len + |expired| == old(len)
      ensures forall x :: x in Contents() <==> x in old(Contents()) && Ns(x.deadline) > Ns(now)
      ensures forall x :: x in expired <==> x in old(Contents()) && Ns(x.deadline) <= Ns(now)
      ensures forall x :: x in expired ==> x.IsExpired()
      ensures forall x :: x in Contents() ==> !x.IsExpired()
      ensures Sorted(expired) && Different(expired)
    {
      expired := [];
      ghost var h0 := heap[..len];
      while len > 0 && Cmp(heap[0].deadline, now) <= 0
        invariant Valid() && len + |expired| == |h0| && Drained(heap[..len], expired, h0, now)
        invariant forall x :: x in expired ==> x.IsExpired()
      {
        forall i | 0 <= i < len ensures heap[..len][i] in h0 {
          assert heap[..len][i] in heap[..len];
        }
        var min := ExpireMin(expired, h0, now);
        expired := expired + [min];
      }
      NoneDue(heap[..len], now);
    }
  }

  predicate Sorted(list: seq<Timer>) {
    forall i, j :: 0 <= i < j < |list| ==> Le(list[i], list[j])
  }

  /** The timers of `h0` are those in the heap and the ones taken out, which were due and come first. */
  ghost predicate Drained(h: seq<Timer>, expired: seq<Timer>, h0: seq<Timer>, now: Time) {
    && (forall x :: x in h0 ==> x in h || x in expired)
    && (forall x :: x in h ==> x in h0 && x !in expired)
    && (forall x :: x in expired ==> x in h0 && Ns(x.deadline) <= Ns(now))
    && (forall x, y :: x in expired && y in h ==> Le(x, y))
    && Sorted(expired) && Different(expired)
  }

  lemma Drain(h: seq<Timer>, r: seq<Timer>, expired: seq<Timer>, h0: seq<Timer>, now: Time)
    requires IsHeap(h) && h != [] && Drained(h, expired, h0, now) && Ns(h[0].deadline) <= Ns(now)
    requires Without(h, 0, r)
    ensures Drained(r, expired + [h[0]], h0, now)
  {
    var e := expired + [h[0]];
    assert h[0] in h;
    forall x, y | x in e && y in r ensures Le(x, y) {
      RootLeAll(h, y);
    }
    forall i, j | 0 <= i < j < |e| ensures Le(e[i], e[j]) && e[i] != e[j] {
      assert e[i] in expired;
    }
  }

  lemma NoneDue(h: seq<Timer>, now: Time)
    requires IsHeap(h) && (h == [] || Ns(h[0].deadline) > Ns(now))
    ensures forall x :: x in h ==> Ns(x.deadline) > Ns(now)
  {
    forall x | x in h ensures Ns(x.deadline) > Ns(now) {
      RootLeAll(h, x);
    }
  }
}
