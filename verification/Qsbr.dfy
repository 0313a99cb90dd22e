/**
 * Quiescent-state-based reclamation (src/fev_qsbr.h).
 *
 * Every shared access of fev_qsbr_free() and fev_qsbr_quiescent() is one step of an interleaving
 * machine over any number n > 1 of threads; a write to the calling thread's own local epoch happens
 * together with the shared access before it. Epochs are 32-bit words. Fields marked "history" are
 * written by the steps and never read by them, except that a caller may only hand over an entry
 * that is not being reclaimed already.
 */
module Qsbr {
  import opened Common

  type Entry = nat
  type Links = map<Entry, Option<Entry>>

  datatype Pc =
    | Idle
    // fev_qsbr_free(), lines 78-92
    | FreeClaim(e: Entry)
    | FreeLoadEpoch(e: Entry)
    | FreeSetRemaining(e: Entry, epoch: nat)
    | FreeSetEpoch(e: Entry, epoch: nat)
    | FreeLoadSecond(e: Entry)
    | FreePush(e: Entry)
    // fev_qsbr_quiescent(), lines 103-132
    | QuietLoad
    | QuietSub(epoch: nat)
    | QuietLoadFirst(epoch: nat)
    | QuietLoadSecond(epoch: nat, toFree: Option<Entry>)
    | QuietGrab(epoch: nat, toFree: Option<Entry>, second: Option<Entry>)
    | QuietStoreFirst(epoch: nat, toFree: Option<Entry>, second: Option<Entry>)
    | QuietSetRemaining(epoch: nat, toFree: Option<Entry>)
    | QuietSetEpoch(epoch: nat, toFree: Option<Entry>)
    | QuietClear(epoch: nat, toFree: Option<Entry>)

  /** Where an entry is, between the call that frees it and the call that returns it. */
  datatype Place = Out | Transit(t: nat) | First | Second | Taken

  /** The two lists and the links between entries; the last five fields are history. */
  datatype Lists = Lists(
    toFree1: Option<Entry>,
    toFree2: Option<Entry>,
    next: Links,
    first: seq<Entry>,           // the list that starts at toFree1
    second: seq<Entry>,          // the list that starts at toFree2
    taken: seq<Entry>,           // a list in the hands of the thread that ends a grace period
    takenHead: Option<Entry>,
    place: map<Entry, Place>
  )

  /** History: when and by whom entries were freed, when threads were last quiescent. */
  datatype Clock = Clock(
    now: nat,                    // steps taken so far
    handed: map<Entry, nat>,     // step at which the entry was last handed to fev_qsbr_free()
    freer: map<Entry, nat>,
    quiet: seq<nat>              // one more than the last step made inside fev_qsbr_quiescent()
  )

  /** History: what the grace-period machinery as a whole is doing. */
  datatype Phase = Quiet | Starting(t: nat) | Active | Finishing(t: nat)

  datatype State = State(
    pcs: seq<Pc>,
    locals: seq<nat>,            // the local epochs
    epoch: nat,
    remaining: nat,
    lists: Lists,
    clock: Clock,
    era: nat,                    // history: the epoch counted without wrap-around
    eras: seq<nat>,              // history: the local epochs counted without wrap-around
    phase: Phase
  )

  /** What one step shows to the outside. */
  datatype Event = Event(t: nat, quiescent: bool, handed: Option<Entry>, returned: Option<Entry>)

  // ---------------------------------------------------------------------------------------------
  // The lists
  // ---------------------------------------------------------------------------------------------

  /** `list` is what a walk along `next` from `head` to NULL visits. */
  ghost predicate Chain(next: Links, head: Option<Entry>, list: seq<Entry>)
    decreases |list|
  {
    if list == [] then head == None
    else head == Some(list[0]) && list[0] in next && Chain(next, next[list[0]], list[1..])
  }

  lemma {:induction false} ChainFrame(next: Links, next': Links, head: Option<Entry>, list: seq<Entry>)
    requires Chain(next, head, list)
    requires forall e :: e in list ==> e in next && e in next' && next'[e] == next[e]
    ensures Chain(next', head, list)
    decreases |list|
  {
    if list != [] {
      ChainFrame(next, next', next[list[0]], list[1..]);
    }
  }

  lemma {:induction false} ChainUnique(next: Links, head: Option<Entry>, a: seq<Entry>, b: seq<Entry>)
    requires Chain(next, head, a) && Chain(next, head, b)
    ensures a == b
    decreases |a|
  {
    if a != [] && b != [] {
      ChainUnique(next, next[a[0]], a[1..], b[1..]);
      assert a == [a[0]] + a[1..] && b == [b[0]] + b[1..];
    }
  }

  /** The list holds exactly the entries that are at `where`, each once. */
  ghost predicate Listed(place: map<Entry, Place>, list: seq<Entry>, where: Place) {
    && Distinct(list)
    && (forall e :: e in list <==> e in place && place[e] == where)
  }

  ghost predicate ListsOk(l: Lists) {
    && Chain(l.next, l.toFree1, l.first)
    && Chain(l.next, l.toFree2, l.second)
    && Chain(l.next, l.takenHead, l.taken)
    && Listed(l.place, l.first, First)
    && Listed(l.place, l.second, Second)
    && Listed(l.place, l.taken, Taken)
    && l.place.Keys <= l.next.Keys
  }

  function Moved(place: map<Entry, Place>, list: seq<Entry>, to: Place): map<Entry, Place> {
    map e | e in place :: if e in list then to else place[e]
  }

  predicate Outside(l: Lists, e: Entry) {
    e in l.place ==> l.place[e] == Out
  }

  function HandOver(l: Lists, e: Entry, t: nat): Lists {
    l.(next := l.next[e := None], place := l.place[e := Transit(t)])
  }

  function StartFirst(l: Lists, e: Entry): Lists {
    l.(toFree1 := Some(e), first := [e], place := l.place[e := First])
  }

  function Relink(l: Lists, e: Entry): Lists {
    l.(next := l.next[e := l.toFree2])
  }

  function PushSecond(l: Lists, e: Entry): Lists {
    l.(toFree2 := Some(e), second := [e] + l.second, place := l.place[e := Second])
  }

  function GrabSecond(l: Lists): Lists {
    l.(toFree2 := None, taken := l.second, takenHead := l.toFree2, second := [],
       place := Moved(l.place, l.second, Taken))
  }

  function SwapFirst(l: Lists, head: Option<Entry>): Lists {
    l.(toFree1 := head, taken := l.first, takenHead := l.toFree1, first := l.taken,
       place := Moved(Moved(l.place, l.first, Taken), l.taken, First))
  }

  function ReturnTaken(l: Lists): Lists {
    l.(taken := [], takenHead := None, place := Moved(l.place, l.taken, Out))
  }

  function ReturnFirst(l: Lists): Lists {
    l.(toFree1 := None, first := [], place := Moved(l.place, l.first, Out))
  }

  // ---------------------------------------------------------------------------------------------
  // Steps
  // ---------------------------------------------------------------------------------------------

  ghost predicate Init(s: State) {
    && 1 < |s.pcs| < WORD
    && s.pcs == seq(|s.pcs|, i => Idle)
    && s.locals == s.eras == seq(|s.pcs|, i => 0)
    && s.epoch == 0 && s.remaining == 0 && s.era == 0 && s.phase == Quiet
    && s.lists == Lists(None, None, map[], [], [], [], None, map[])
    && s.clock == Clock(0, map[], map[], seq(|s.pcs|, i => 0))
  }

  predicate At(s: State, t: nat) {
    && t < |s.pcs|
    && |s.locals| == |s.pcs| && |s.eras| == |s.pcs| && |s.clock.quiet| == |s.pcs|
  }

  /** A step of fev_qsbr_free(). */
  function Go(s: State, t: nat, pc: Pc): State
    requires At(s, t)
  {
    s.(pcs := s.pcs[t := pc], clock := s.clock.(now := s.clock.now + 1))
  }

  /** A step of fev_qsbr_quiescent(). */
  function QGo(s: State, t: nat, pc: Pc): State
    requires At(s, t)
  {
    s.(pcs := s.pcs[t := pc],
       clock := s.clock.(now := s.clock.now + 1, quiet := s.clock.quiet[t := s.clock.now + 1]))
  }

  ghost predicate CallFree(s: State, s': State, t: nat, e: Entry) {
    && At(s, t) && s.pcs[t] == Idle && Outside(s.lists, e)
    && s' == Go(s, t, FreeClaim(e)).(
               lists := HandOver(s.lists, e, t),
               clock := s.clock.(now := s.clock.now + 1,
                                 handed := s.clock.handed[e := s.clock.now],
                                 freer := s.clock.freer[e := t]))
  }

  ghost predicate Claim(s: State, s': State, t: nat) {
    && At(s, t) && s.pcs[t].FreeClaim?
    && var e := s.pcs[t].e;
       s' == if s.lists.toFree1 == None
             then Go(s, t, FreeLoadEpoch(e)).(lists := StartFirst(s.lists, e), phase := Starting(t))
             else Go(s, t, FreeLoadSecond(e))
  }

  ghost predicate LoadEpoch(s: State, s': State, t: nat) {
    && At(s, t) && s.pcs[t].FreeLoadEpoch?
    && s' == Go(s, t, FreeSetRemaining(s.pcs[t].e, s.epoch))
  }

  ghost predicate SetRemaining(s: State, s': State, t: nat) {
    && At(s, t) && s.pcs[t].FreeSetRemaining?
    && s' == Go(s, t, FreeSetEpoch(s.pcs[t].e, s.pcs[t].epoch)).(remaining := |s.pcs| - 1)
  }

  ghost predicate SetEpoch(s: State, s': State, t: nat) {
    && At(s, t) && s.pcs[t].FreeSetEpoch?
    && var epoch := Word(s.pcs[t].epoch + 1);
       s' == Go(s, t, Idle).(epoch := epoch, locals := s.locals[t := epoch],
                             era := s.era + 1, eras := s.eras[t := s.era + 1], phase := Active)
  }

  ghost predicate LoadSecond(s: State, s': State, t: nat) {
    && At(s, t) && s.pcs[t].FreeLoadSecond?
    && s' == Go(s, t, FreePush(s.pcs[t].e)).(lists := Relink(s.lists, s.pcs[t].e))
  }

  // The weak CAS expects entry->next; when it fails, spuriously or not, it stores there what it found.
  ghost predicate Push(s: State, s': State, t: nat, spurious: bool) {
    && At(s, t) && s.pcs[t].FreePush?
    && var e := s.pcs[t].e;
       s' == if e in s.lists.next && s.lists.next[e] == s.lists.toFree2 && !spurious
             then Go(s, t, Idle).(lists := PushSecond(s.lists, e))
             else Go(s, t, FreePush(e)).(lists := Relink(s.lists, e))
  }

  ghost predicate CallQuiescent(s: State, s': State, t: nat) {
    && At(s, t) && s.pcs[t] == Idle
    && s' == QGo(s, t, QuietLoad)
  }

  ghost predicate QLoad(s: State, s': State, t: nat) {
    && At(s, t) && s.pcs[t].QuietLoad?
    && s' == QGo(s, t, if s.epoch == s.locals[t] then Idle else QuietSub(s.epoch))
  }

  ghost predicate QSub(s: State, s': State, t: nat) {
    && At(s, t) && s.pcs[t].QuietSub?
    && var epoch := s.pcs[t].epoch;
       s' == if s.remaining == 1
             then QGo(s, t, QuietLoadFirst(epoch)).(remaining := 0, phase := Finishing(t))
             else QGo(s, t, Idle).(remaining := Word(s.remaining - 1),
                                   locals := s.locals[t := epoch], eras := s.eras[t := s.era])
  }

  ghost predicate QLoadFirst(s: State, s': State, t: nat) {
    && At(s, t) && s.pcs[t].QuietLoadFirst?
    && s' == QGo(s, t, QuietLoadSecond(s.pcs[t].epoch, s.lists.toFree1))
  }

  ghost predicate QLoadSecond(s: State, s': State, t: nat) {
    && At(s, t) && s.pcs[t].QuietLoadSecond?
    && var pc := s.pcs[t];
       s' == QGo(s, t, if s.lists.toFree2 != None
                       then QuietGrab(pc.epoch, pc.toFree, s.lists.toFree2)
                       else QuietClear(pc.epoch, pc.toFree))
  }

  ghost predicate QGrab(s: State, s': State, t: nat, spurious: bool) {
    && At(s, t) && s.pcs[t].QuietGrab?
    && var pc := s.pcs[t];
       s' == if s.lists.toFree2 == pc.second && !spurious
             then QGo(s, t, QuietStoreFirst(pc.epoch, pc.toFree, pc.second))
                  .(lists := GrabSecond(s.lists))
             else QGo(s, t, QuietGrab(pc.epoch, pc.toFree, s.lists.toFree2))
  }

  ghost predicate QStoreFirst(s: State, s': State, t: nat) {
    && At(s, t) && s.pcs[t].QuietStoreFirst?
    && var pc := s.pcs[t];
       s' == QGo(s, t, QuietSetRemaining(pc.epoch, pc.toFree)).(lists := SwapFirst(s.lists, pc.second))
  }

  ghost predicate QSetRemaining(s: State, s': State, t: nat) {
    && At(s, t) && s.pcs[t].QuietSetRemaining?
    && s' == QGo(s, t, QuietSetEpoch(s.pcs[t].epoch, s.pcs[t].toFree)).(remaining := |s.pcs| - 1)
  }

  ghost predicate QSetEpoch(s: State, s': State, t: nat) {
    && At(s, t) && s.pcs[t].QuietSetEpoch?
    && var epoch := Word(s.pcs[t].epoch + 1);
       s' == QGo(s, t, Idle).(epoch := epoch, locals := s.locals[t := epoch],
                              era := s.era + 1, eras := s.eras[t := s.era + 1], phase := Active,
                              lists := ReturnTaken(s.lists))
  }

  ghost predicate QClear(s: State, s': State, t: nat) {
    && At(s, t) && s.pcs[t].QuietClear?
    && s' == QGo(s, t, Idle).(locals := s.locals[t := s.pcs[t].epoch], eras := s.eras[t := s.era],
                              phase := Quiet, lists := ReturnFirst(s.lists))
  }

  ghost predicate InFree(s: State, s': State, t: nat) {
    && At(s, t)
    && match s.pcs[t]
       case FreeClaim(_) => Claim(s, s', t)
       case FreeLoadEpoch(_) => LoadEpoch(s, s', t)
       case FreeSetRemaining(_, _) => SetRemaining(s, s', t)
       case FreeSetEpoch(_, _) => SetEpoch(s, s', t)
       case FreeLoadSecond(_) => LoadSecond(s, s', t)
       case FreePush(_) => Push(s, s', t, true) || Push(s, s', t, false)
       case _ => false
  }

  ghost predicate InQuiescent(s: State, s': State, t: nat) {
    && At(s, t)
    && match s.pcs[t]
       case Idle => CallQuiescent(s, s', t)
       case QuietLoad => QLoad(s, s', t)
       case QuietSub(_) => QSub(s, s', t)
       case QuietLoadFirst(_) => QLoadFirst(s, s', t)
       case QuietLoadSecond(_, _) => QLoadSecond(s, s', t)
       case QuietGrab(_, _, _) => QGrab(s, s', t, true) || QGrab(s, s', t, false)
       case QuietStoreFirst(_, _, _) => QStoreFirst(s, s', t)
       case QuietSetRemaining(_, _) => QSetRemaining(s, s', t)
       case _ => false
  }

  ghost predicate Next(s: State, s': State, ev: Event) {
    if ev.handed.Some? then
      CallFree(s, s', ev.t, ev.handed.value) && !ev.quiescent && ev.returned == None
    else if !ev.quiescent then
      InFree(s, s', ev.t) && ev.returned == None
    else if At(s, ev.t) && (s.pcs[ev.t].QuietSetEpoch? || s.pcs[ev.t].QuietClear?) then
      (QSetEpoch(s, s', ev.t) || QClear(s, s', ev.t)) && ev.returned == s.pcs[ev.t].toFree
    else
      InQuiescent(s, s', ev.t) && ev.returned == None
  }

  // ---------------------------------------------------------------------------------------------
  // Invariant
  // ---------------------------------------------------------------------------------------------

  /** How many local epochs are behind the global one. */
  function Behind(era: nat, eras: seq<nat>): nat {
    if eras == [] then 0
    else (if eras[|eras| - 1] < era then 1 else 0) + Behind(era, eras[..|eras| - 1])
  }

  ghost predicate OnlyBehind(era: nat, eras: seq<nat>, t: nat) {
    forall u :: 0 <= u < |eras| && u != t ==> eras[u] == era
  }

  ghost predicate Level(era: nat, eras: seq<nat>) {
    forall u :: 0 <= u < |eras| ==> eras[u] == era
  }

  lemma {:induction false} BehindUpdate(era: nat, eras: seq<nat>, t: nat)
    requires t < |eras| && eras[t] < era
    ensures Behind(era, eras[t := era]) == Behind(era, eras) - 1
    ensures 1 <= Behind(era, eras) <= |eras|
  {
    var last := |eras| - 1;
    BehindBound(era, eras[..last]);
    if t == last {
      assert eras[t := era][..last] == eras[..last];
    } else {
      BehindUpdate(era, eras[..last], t);
      assert eras[t := era][..last] == eras[..last][t := era];
    }
  }

  lemma {:induction false} BehindBound(era: nat, eras: seq<nat>)
    ensures Behind(era, eras) <= |eras|
    ensures Behind(era, eras) == 0 ==> forall u :: 0 <= u < |eras| ==> eras[u] >= era
  {
    if eras != [] {
      BehindBound(era, eras[..|eras| - 1]);
    }
  }

  lemma BehindOne(era: nat, eras: seq<nat>, t: nat)
    requires t < |eras| && eras[t] < era && Behind(era, eras) == 1
    ensures forall u :: 0 <= u < |eras| && u != t ==> eras[u] >= era
  {
    BehindUpdate(era, eras, t);
    BehindBound(era, eras[t := era]);
    forall u | 0 <= u < |eras| && u != t ensures eras[u] >= era {
      assert eras[u] == eras[t := era][u];
    }
  }

  lemma {:induction false} BehindAll(era: nat, eras: seq<nat>)
    requires forall u :: 0 <= u < |eras| ==> eras[u] < era
    ensures Behind(era, eras) == |eras|
  {
    if eras != [] {
      BehindAll(era, eras[..|eras| - 1]);
    }
  }

  ghost predicate Sizes(s: State) {
    && 1 < |s.pcs| < WORD
    && |s.locals| == |s.pcs| && |s.eras| == |s.pcs| && |s.clock.quiet| == |s.pcs|
  }

  /** A local epoch is the global one or one behind it. */
  ghost predicate Words(epoch: nat, locals: seq<nat>, era: nat, eras: seq<nat>) {
    && epoch == Word(era)
    && |locals| == |eras|
    && forall t :: 0 <= t < |eras| ==>
         locals[t] == Word(eras[t]) && eras[t] <= era <= eras[t] + 1
  }

  ghost predicate Starts(pc: Pc) {
    pc.FreeLoadEpoch? || pc.FreeSetRemaining? || pc.FreeSetEpoch?
  }

  ghost predicate Swapped(pc: Pc) {
    pc.QuietSetRemaining? || pc.QuietSetEpoch?
  }

  ghost predicate Finishes(pc: Pc) {
    || pc.QuietLoadFirst? || pc.QuietLoadSecond? || pc.QuietGrab? || pc.QuietStoreFirst?
    || pc.QuietClear? || Swapped(pc)
  }

  /** Only the phase's own thread is at a starting or finishing step. */
  ghost predicate Roles(pcs: seq<Pc>, phase: Phase) {
    forall t :: 0 <= t < |pcs| ==>
      && (Starts(pcs[t]) ==> phase == Starting(t))
      && (Finishes(pcs[t]) ==> phase == Finishing(t))
  }

  /** A thread that saw a new epoch is still counted in the grace period of that epoch. */
  ghost predicate Pending(pcs: seq<Pc>, phase: Phase, epoch: nat, era: nat, eras: seq<nat>) {
    && |eras| == |pcs|
    && forall t :: 0 <= t < |pcs| && pcs[t].QuietSub? ==>
         phase == Active && eras[t] < era && pcs[t].epoch == epoch
  }

  /** What each phase means for the shared words. */
  ghost predicate PhaseOk(s: State) {
    match s.phase
    case Quiet =>
      s.lists.toFree1 == None && s.lists.takenHead == None && Level(s.era, s.eras)
    case Starting(t) =>
      && t < |s.pcs| && Starts(s.pcs[t])
      && s.lists.takenHead == None && Level(s.era, s.eras)
      && var pc := s.pcs[t];
         && s.lists.first == [pc.e]
         && (!pc.FreeLoadEpoch? ==> pc.epoch == s.epoch)
         && (pc.FreeSetEpoch? ==> s.remaining == |s.pcs| - 1)
    case Active =>
      && s.lists.toFree1 != None && s.lists.takenHead == None
      && s.remaining == Behind(s.era, s.eras) && s.remaining >= 1
    case Finishing(t) =>
      && t < |s.pcs| && Finishes(s.pcs[t])
      && t < |s.eras| && OnlyBehind(s.era, s.eras, t) && s.eras[t] < s.era
      && s.remaining == (if s.pcs[t].QuietSetEpoch? then |s.pcs| - 1 else 0)
      && FinishOk(s.pcs[t], s.epoch, s.lists)
  }

  ghost predicate FinishOk(pc: Pc, epoch: nat, l: Lists)
    requires Finishes(pc)
  {
    && pc.epoch == epoch
    && l.toFree1 != None
    && (!pc.QuietLoadFirst? && !Swapped(pc) ==> pc.toFree == l.toFree1)
    && (pc.QuietGrab? ==> pc.second != None && l.toFree2 != None)
    && (if pc.QuietStoreFirst? then
          l.takenHead == pc.second && pc.second != None
        else if Swapped(pc) then
          l.takenHead == pc.toFree && pc.toFree != None
        else
          l.takenHead == None)
  }

  ghost predicate Carries(pc: Pc) {
    pc.FreeClaim? || pc.FreeLoadSecond? || pc.FreePush?
  }

  /** An entry is in transit exactly while one thread is between the two ends of fev_qsbr_free() with it. */
  ghost predicate Transits(pcs: seq<Pc>, place: map<Entry, Place>) {
    && (forall t :: 0 <= t < |pcs| && Carries(pcs[t]) ==>
          pcs[t].e in place && place[pcs[t].e] == Transit(t))
    && (forall e :: e in place && place[e].Transit? ==>
          place[e].t < |pcs| && Carries(pcs[place[e].t]) && pcs[place[e].t].e == e)
  }

  ghost predicate Freeing(pcs: seq<Pc>, next: Links, freer: map<Entry, nat>) {
    forall t :: 0 <= t < |pcs| ==>
      && (Carries(pcs[t]) || Starts(pcs[t]) ==> pcs[t].e in freer && freer[pcs[t].e] == t)
      && (pcs[t].FreeClaim? ==> pcs[t].e in next && next[pcs[t].e] == None)
  }

  ghost predicate Dated(c: Clock, place: map<Entry, Place>) {
    && place.Keys <= c.handed.Keys && place.Keys <= c.freer.Keys
    && (forall e :: e in c.handed ==> c.handed[e] < c.now)
    && (forall t :: 0 <= t < |c.quiet| ==> c.quiet[t] <= c.now)
  }

  /** Thread `t` freed the entry, or was quiescent since it was freed. */
  ghost predicate Graced(c: Clock, e: Entry, t: nat) {
    && e in c.freer && e in c.handed && t < |c.quiet|
    && (t == c.freer[e] || c.quiet[t] > c.handed[e])
  }

  ghost predicate GracedByUpToDate(c: Clock, list: seq<Entry>, era: nat, eras: seq<nat>) {
    forall e, t :: e in list && 0 <= t < |eras| && eras[t] == era ==> Graced(c, e, t)
  }

  ghost predicate GracedByAll(c: Clock, list: seq<Entry>) {
    forall e, t :: e in list && 0 <= t < |c.quiet| ==> Graced(c, e, t)
  }

  /** The entries the current grace period is for. */
  ghost function Waiting(s: State): seq<Entry> {
    if s.phase.Finishing? && s.phase.t < |s.pcs| && Swapped(s.pcs[s.phase.t]) then s.lists.taken
    else s.lists.first
  }

  ghost predicate Grace(s: State) {
    && (s.phase.Active? ==> GracedByUpToDate(s.clock, Waiting(s), s.era, s.eras))
    && (s.phase.Finishing? ==> GracedByAll(s.clock, Waiting(s)))
  }

  ghost predicate Control(s: State) {
    && Sizes(s)
    && Words(s.epoch, s.locals, s.era, s.eras)
    && Roles(s.pcs, s.phase)
    && Pending(s.pcs, s.phase, s.epoch, s.era, s.eras)
    && PhaseOk(s)
  }

  ghost predicate Data(pcs: seq<Pc>, l: Lists, c: Clock) {
    && ListsOk(l)
    && Transits(pcs, l.place)
    && Freeing(pcs, l.next, c.freer)
    && Dated(c, l.place)
  }

  ghost predicate Inv(s: State) {
    Control(s) && Data(s.pcs, s.lists, s.clock) && Grace(s)
  }

  // The lists stay well formed.

  lemma HandOverOk(l: Lists, e: Entry, t: nat)
    requires ListsOk(l) && Outside(l, e)
    ensures ListsOk(HandOver(l, e, t))
  {
    var l' := HandOver(l, e, t);
    ChainFrame(l.next, l'.next, l.toFree1, l.first);
    ChainFrame(l.next, l'.next, l.toFree2, l.second);
    ChainFrame(l.next, l'.next, l.takenHead, l.taken);
  }

  lemma StartFirstOk(l: Lists, e: Entry)
    requires ListsOk(l) && e in l.place && l.place[e].Transit? && l.toFree1 == None && l.next[e] == None
    ensures ListsOk(StartFirst(l, e))
  {
  }

  lemma RelinkOk(l: Lists, e: Entry)
    requires ListsOk(l) && e in l.place && l.place[e].Transit?
    ensures ListsOk(Relink(l, e))
  {
    var l' := Relink(l, e);
    ChainFrame(l.next, l'.next, l.toFree1, l.first);
    ChainFrame(l.next, l'.next, l.toFree2, l.second);
    ChainFrame(l.next, l'.next, l.takenHead, l.taken);
  }

  lemma PushSecondOk(l: Lists, e: Entry)
    requires ListsOk(l) && e in l.place && l.place[e].Transit? && l.next[e] == l.toFree2
    ensures ListsOk(PushSecond(l, e))
  {
    var l' := PushSecond(l, e);
    assert l'.second[1..] == l.second;
  }

  lemma GrabSecondOk(l: Lists)
    requires ListsOk(l) && l.takenHead == None
    ensures ListsOk(GrabSecond(l))
  {
  }

  lemma SwapFirstOk(l: Lists, head: Option<Entry>)
    requires ListsOk(l) && l.takenHead == head
    ensures ListsOk(SwapFirst(l, head))
  {
  }

  lemma ReturnTakenOk(l: Lists)
    requires ListsOk(l)
    ensures ListsOk(ReturnTaken(l))
  {
  }

  lemma ReturnFirstOk(l: Lists)
    requires ListsOk(l)
    ensures ListsOk(ReturnFirst(l))
  {
  }

  // Each step keeps the invariant.

  /** Entries stay graced while time passes. */
  ghost predicate Later(c: Clock, c': Clock, list: seq<Entry>) {
    && |c'.quiet| == |c.quiet|
    && (forall t :: 0 <= t < |c.quiet| ==> c.quiet[t] <= c'.quiet[t])
    && (forall e :: e in list && e in c.freer ==> e in c'.freer && c'.freer[e] == c.freer[e])
    && (forall e :: e in list && e in c.handed ==> e in c'.handed && c'.handed[e] == c.handed[e])
  }

  lemma GracedLater(c: Clock, c': Clock, list: seq<Entry>, era: nat, eras: seq<nat>)
    requires Later(c, c', list)
    ensures GracedByAll(c, list) ==> GracedByAll(c', list)
    ensures GracedByUpToDate(c, list, era, eras) ==> GracedByUpToDate(c', list, era, eras)
  {
    if GracedByAll(c, list) {
      forall e, t | e in list && 0 <= t < |c'.quiet| ensures Graced(c', e, t) {
        assert Graced(c, e, t);
      }
    }
    if GracedByUpToDate(c, list, era, eras) {
      forall e, t | e in list && 0 <= t < |eras| && eras[t] == era ensures Graced(c', e, t) {
        assert Graced(c, e, t);
      }
    }
  }

  lemma GraceKept(s: State, s': State)
    requires Grace(s) && s'.phase == s.phase && s'.era == s.era && s'.eras == s.eras
    requires Waiting(s') == Waiting(s) && Later(s.clock, s'.clock, Waiting(s))
    ensures Grace(s')
  {
    GracedLater(s.clock, s'.clock, Waiting(s), s.era, s.eras);
  }

  /** One thread moves the epoch on while every other thread is level with it. */
  lemma WordsBump(epoch: nat, locals: seq<nat>, era: nat, eras: seq<nat>, t: nat)
    requires Words(epoch, locals, era, eras) && t < |eras| && OnlyBehind(era, eras, t)
    ensures Words(Word(epoch + 1), locals[t := Word(epoch + 1)], era + 1, eras[t := era + 1])
    ensures Behind(era + 1, eras[t := era + 1]) == |eras| - 1
  {
    WordSucc(era);
    BehindAll(era + 1, eras[t := era]);
    BehindUpdate(era + 1, eras[t := era], t);
    assert eras[t := era][t := era + 1] == eras[t := era + 1];
  }

  /** One thread catches up with the epoch. */
  lemma WordsCatchUp(epoch: nat, locals: seq<nat>, era: nat, eras: seq<nat>, t: nat)
    requires Words(epoch, locals, era, eras) && t < |eras| && eras[t] < era
    ensures Words(epoch, locals[t := epoch], era, eras[t := era])
    ensures Behind(era, eras[t := era]) == Behind(era, eras) - 1 < |eras|
  {
    BehindUpdate(era, eras, t);
  }

  /** A thread moves on without an entry, or with the entry it had. */
  lemma TransitsKept(pcs: seq<Pc>, place: map<Entry, Place>, t: nat, pc: Pc)
    requires Transits(pcs, place) && t < |pcs|
    requires Carries(pc) <==> Carries(pcs[t])
    requires Carries(pc) ==> pc.e == pcs[t].e
    ensures Transits(pcs[t := pc], place)
  {
  }

  /** A thread takes up an entry. */
  lemma TransitsPick(pcs: seq<Pc>, place: map<Entry, Place>, t: nat, pc: Pc)
    requires Transits(pcs, place) && t < |pcs| && !Carries(pcs[t]) && Carries(pc)
    requires pc.e in place ==> !place[pc.e].Transit?
    ensures Transits(pcs[t := pc], place[pc.e := Transit(t)])
  {
  }

  /** A thread puts down the entry it carried. */
  lemma TransitsLand(pcs: seq<Pc>, place: map<Entry, Place>, t: nat, pc: Pc, where: Place)
    requires Transits(pcs, place) && t < |pcs| && Carries(pcs[t]) && !Carries(pc) && !where.Transit?
    ensures Transits(pcs[t := pc], place[pcs[t].e := where])
  {
  }

  /** Entries move between places that are not transits. */
  lemma TransitsMoved(pcs: seq<Pc>, place: map<Entry, Place>, list: seq<Entry>, where: Place)
    requires Transits(pcs, place) && !where.Transit?
    requires forall e :: e in list ==> e in place && !place[e].Transit?
    ensures Transits(pcs, Moved(place, list, where))
  {
  }

  /** A step that leaves the lists alone and carries no entry. */
  lemma DataKept(s: State, s': State, t: nat)
    requires Data(s.pcs, s.lists, s.clock) && At(s, t) && |s'.pcs| == |s.pcs|
    requires s'.lists == s.lists && s'.pcs == s.pcs[t := s'.pcs[t]]
    requires !Carries(s.pcs[t]) && !Carries(s'.pcs[t])
    requires Starts(s'.pcs[t]) ==> Starts(s.pcs[t]) && s'.pcs[t].e == s.pcs[t].e
    requires s'.clock == Go(s, t, Idle).clock || s'.clock == QGo(s, t, Idle).clock
    ensures Data(s'.pcs, s'.lists, s'.clock)
  {
    TransitsKept(s.pcs, s.lists.place, t, s'.pcs[t]);
  }

  lemma InitInv(s: State)
    requires Init(s)
    ensures Inv(s)
  {
  }

  // fev_qsbr_free()

  lemma CallFreeControl(s: State, s': State, t: nat, e: Entry)
    requires Control(s) && CallFree(s, s', t, e)
    ensures Control(s')
  {
  }

  lemma CallFreeData(s: State, s': State, t: nat, e: Entry)
    requires Control(s) && Data(s.pcs, s.lists, s.clock) && CallFree(s, s', t, e)
    ensures Data(s'.pcs, s'.lists, s'.clock)
  {
    HandOverOk(s.lists, e, t);
    TransitsPick(s.pcs, s.lists.place, t, FreeClaim(e));
  }

  lemma CallFreeInv(s: State, s': State, t: nat, e: Entry)
    requires Inv(s) && CallFree(s, s', t, e)
    ensures Inv(s')
  {
    CallFreeControl(s, s', t, e);
    CallFreeData(s, s', t, e);
    GraceKept(s, s');
  }

  lemma ClaimControl(s: State, s': State, t: nat)
    requires Control(s) && ListsOk(s.lists) && Claim(s, s', t)
    ensures Control(s')
  {
  }

  lemma ClaimInv(s: State, s': State, t: nat)
    requires Inv(s) && Claim(s, s', t)
    ensures Inv(s')
  {
    ClaimControl(s, s', t);
    if s.lists.toFree1 == None {
      StartFirstOk(s.lists, s.pcs[t].e);
      TransitsLand(s.pcs, s.lists.place, t, s'.pcs[t], First);
    } else {
      TransitsKept(s.pcs, s.lists.place, t, s'.pcs[t]);
      GraceKept(s, s');
    }
  }

  lemma LoadEpochInv(s: State, s': State, t: nat)
    requires Inv(s) && LoadEpoch(s, s', t)
    ensures Inv(s')
  {
    DataKept(s, s', t);
  }

  lemma SetRemainingInv(s: State, s': State, t: nat)
    requires Inv(s) && SetRemaining(s, s', t)
    ensures Inv(s')
  {
    DataKept(s, s', t);
  }

  lemma SetEpochInv(s: State, s': State, t: nat)
    requires Inv(s) && SetEpoch(s, s', t)
    ensures Inv(s')
  {
    DataKept(s, s', t);
    SetEpochControl(s, s', t);
  }

  lemma SetEpochControl(s: State, s': State, t: nat)
    requires Control(s) && ListsOk(s.lists) && SetEpoch(s, s', t)
    ensures Control(s')
  {
    WordsBump(s.epoch, s.locals, s.era, s.eras, t);
  }

  lemma LoadSecondControl(s: State, s': State, t: nat)
    requires Control(s) && LoadSecond(s, s', t)
    ensures Control(s')
  {
  }

  lemma LoadSecondInv(s: State, s': State, t: nat)
    requires Inv(s) && LoadSecond(s, s', t)
    ensures Inv(s')
  {
    LoadSecondControl(s, s', t);
    RelinkOk(s.lists, s.pcs[t].e);
    TransitsKept(s.pcs, s.lists.place, t, s'.pcs[t]);
    GraceKept(s, s');
  }

  lemma PushControl(s: State, s': State, t: nat, spurious: bool)
    requires Control(s) && Push(s, s', t, spurious)
    ensures Control(s')
  {
  }

  lemma PushedData(s: State, s': State, t: nat)
    requires Data(s.pcs, s.lists, s.clock) && Push(s, s', t, false)
    requires s.pcs[t].e in s.lists.next && s.lists.next[s.pcs[t].e] == s.lists.toFree2
    ensures Data(s'.pcs, s'.lists, s'.clock)
  {
    PushSecondOk(s.lists, s.pcs[t].e);
    TransitsLand(s.pcs, s.lists.place, t, Idle, Second);
  }

  lemma RelinkedData(s: State, s': State, t: nat)
    requires Data(s.pcs, s.lists, s.clock) && At(s, t) && s.pcs[t].FreePush?
    requires s' == Go(s, t, s.pcs[t]).(lists := Relink(s.lists, s.pcs[t].e))
    ensures Data(s'.pcs, s'.lists, s'.clock)
  {
    RelinkOk(s.lists, s.pcs[t].e);
    TransitsKept(s.pcs, s.lists.place, t, s'.pcs[t]);
  }

  lemma PushData(s: State, s': State, t: nat, spurious: bool)
    requires Data(s.pcs, s.lists, s.clock) && Push(s, s', t, spurious)
    ensures Data(s'.pcs, s'.lists, s'.clock)
  {
    var e := s.pcs[t].e;
    if e in s.lists.next && s.lists.next[e] == s.lists.toFree2 && !spurious {
      PushedData(s, s', t);
    } else {
      RelinkedData(s, s', t);
    }
  }

  lemma PushInv(s: State, s': State, t: nat, spurious: bool)
    requires Inv(s) && Push(s, s', t, spurious)
    ensures Inv(s')
  {
    PushControl(s, s', t, spurious);
    PushData(s, s', t, spurious);
    GraceKept(s, s');
  }

  // fev_qsbr_quiescent()

  lemma CallQuiescentInv(s: State, s': State, t: nat)
    requires Inv(s) && CallQuiescent(s, s', t)
    ensures Inv(s')
  {
    DataKept(s, s', t);
    GraceKept(s, s');
  }

  lemma QLoadControl(s: State, s': State, t: nat)
    requires Control(s) && QLoad(s, s', t)
    ensures Control(s')
  {
    WordInjective(s.era, s.eras[t]);
  }

  lemma QLoadInv(s: State, s': State, t: nat)
    requires Inv(s) && QLoad(s, s', t)
    ensures Inv(s')
  {
    QLoadControl(s, s', t);
    DataKept(s, s', t);
    GraceKept(s, s');
  }

  lemma QSubControl(s: State, s': State, t: nat)
    requires Control(s) && QSub(s, s', t) && s.remaining != 1
    ensures Control(s')
  {
    WordsCatchUp(s.epoch, s.locals, s.era, s.eras, t);
    WordSmall(s.remaining - 1);
  }

  /** An acknowledgement that is not the last one of its grace period. */
  lemma QSubInv(s: State, s': State, t: nat)
    requires Inv(s) && QSub(s, s', t) && s.remaining != 1
    ensures Inv(s')
  {
    QSubControl(s, s', t);
    DataKept(s, s', t);
    GracedLater(s.clock, s'.clock, s.lists.first, s.era, s.eras);
  }

  lemma QSubLastControl(s: State, s': State, t: nat)
    requires Control(s) && QSub(s, s', t) && s.remaining == 1
    ensures Control(s')
    ensures OnlyBehind(s.era, s.eras, t)
  {
    BehindOne(s.era, s.eras, t);
  }

  /** The last acknowledgement: every thread has now been quiescent since the entries were freed. */
  lemma QSubLastInv(s: State, s': State, t: nat)
    requires Inv(s) && QSub(s, s', t) && s.remaining == 1
    ensures Inv(s')
  {
    QSubLastControl(s, s', t);
    DataKept(s, s', t);
    GracedLater(s.clock, s'.clock, s.lists.first, s.era, s.eras);
  }

  lemma QLoadFirstInv(s: State, s': State, t: nat)
    requires Inv(s) && QLoadFirst(s, s', t)
    ensures Inv(s')
  {
    DataKept(s, s', t);
    GraceKept(s, s');
  }

  lemma QLoadSecondInv(s: State, s': State, t: nat)
    requires Inv(s) && QLoadSecond(s, s', t)
    ensures Inv(s')
  {
    DataKept(s, s', t);
    GraceKept(s, s');
  }

  lemma QGrabControl(s: State, s': State, t: nat, spurious: bool)
    requires Control(s) && QGrab(s, s', t, spurious)
    ensures Control(s')
  {
  }

  lemma QGrabData(s: State, s': State, t: nat, spurious: bool)
    requires Data(s.pcs, s.lists, s.clock) && QGrab(s, s', t, spurious) && s.lists.takenHead == None
    ensures Data(s'.pcs, s'.lists, s'.clock)
  {
    TransitsKept(s.pcs, s.lists.place, t, s'.pcs[t]);
    if s.lists.toFree2 == s.pcs[t].second && !spurious {
      GrabSecondOk(s.lists);
      TransitsMoved(s'.pcs, s.lists.place, s.lists.second, Taken);
    }
  }

  lemma QGrabInv(s: State, s': State, t: nat, spurious: bool)
    requires Inv(s) && QGrab(s, s', t, spurious)
    ensures Inv(s')
  {
    QGrabControl(s, s', t, spurious);
    QGrabData(s, s', t, spurious);
    GraceKept(s, s');
  }

  lemma QStoreFirstControl(s: State, s': State, t: nat)
    requires Control(s) && QStoreFirst(s, s', t)
    ensures Control(s')
  {
  }

  lemma QStoreFirstInv(s: State, s': State, t: nat)
    requires Inv(s) && QStoreFirst(s, s', t)
    ensures Inv(s')
  {
    QStoreFirstControl(s, s', t);
    SwapFirstOk(s.lists, s.pcs[t].second);
    TransitsKept(s.pcs, s.lists.place, t, s'.pcs[t]);
    TransitsMoved(s'.pcs, s.lists.place, s.lists.first, Taken);
    TransitsMoved(s'.pcs, Moved(s.lists.place, s.lists.first, Taken), s.lists.taken, First);
    GraceKept(s, s');
  }

  lemma QSetRemainingInv(s: State, s': State, t: nat)
    requires Inv(s) && QSetRemaining(s, s', t)
    ensures Inv(s')
  {
    DataKept(s, s', t);
    GraceKept(s, s');
  }

  lemma QSetEpochControl(s: State, s': State, t: nat)
    requires Control(s) && QSetEpoch(s, s', t)
    ensures Control(s')
  {
    WordsBump(s.epoch, s.locals, s.era, s.eras, t);
  }

  lemma QSetEpochInv(s: State, s': State, t: nat)
    requires Inv(s) && QSetEpoch(s, s', t)
    ensures Inv(s')
  {
    QSetEpochControl(s, s', t);
    QSetEpochData(s, s', t);
  }

  lemma QSetEpochData(s: State, s': State, t: nat)
    requires Data(s.pcs, s.lists, s.clock) && QSetEpoch(s, s', t)
    ensures Data(s'.pcs, s'.lists, s'.clock)
  {
    ReturnTakenOk(s.lists);
    TransitsKept(s.pcs, s.lists.place, t, s'.pcs[t]);
    TransitsMoved(s'.pcs, s.lists.place, s.lists.taken, Out);
  }

  lemma QClearInv(s: State, s': State, t: nat)
    requires Inv(s) && QClear(s, s', t)
    ensures Inv(s')
  {
    QClearControl(s, s', t);
    QClearData(s, s', t);
  }

  lemma QClearControl(s: State, s': State, t: nat)
    requires Control(s) && QClear(s, s', t)
    ensures Control(s')
  {
  }

  lemma QClearData(s: State, s': State, t: nat)
    requires Data(s.pcs, s.lists, s.clock) && QClear(s, s', t)
    ensures Data(s'.pcs, s'.lists, s'.clock)
  {
    ReturnFirstOk(s.lists);
    TransitsKept(s.pcs, s.lists.place, t, s'.pcs[t]);
    TransitsMoved(s'.pcs, s.lists.place, s.lists.first, Out);
  }

  lemma FreeStepInv(s: State, s': State, t: nat)
    requires Inv(s) && InFree(s, s', t)
    ensures Inv(s')
  {
    match s.pcs[t]
    case FreeClaim(_) => ClaimInv(s, s', t);
    case FreeLoadEpoch(_) => LoadEpochInv(s, s', t);
    case FreeSetRemaining(_, _) => SetRemainingInv(s, s', t);
    case FreeSetEpoch(_, _) => SetEpochInv(s, s', t);
    case FreeLoadSecond(_) => LoadSecondInv(s, s', t);
    case FreePush(_) => PushInv(s, s', t, Push(s, s', t, true));
    case _ =>
  }

  lemma QuiescentStepInv(s: State, s': State, t: nat)
    requires Inv(s) && InQuiescent(s, s', t)
    ensures Inv(s')
  {
    match s.pcs[t]
    case Idle => CallQuiescentInv(s, s', t);
    case QuietLoad => QLoadInv(s, s', t);
    case QuietSub(_) =>
      if s.remaining == 1 {
        QSubLastInv(s, s', t);
      } else {
        QSubInv(s, s', t);
      }
    case QuietLoadFirst(_) => QLoadFirstInv(s, s', t);
    case QuietLoadSecond(_, _) => QLoadSecondInv(s, s', t);
    case QuietGrab(_, _, _) => QGrabInv(s, s', t, QGrab(s, s', t, true));
    case QuietStoreFirst(_, _, _) => QStoreFirstInv(s, s', t);
    case QuietSetRemaining(_, _) => QSetRemainingInv(s, s', t);
    case _ =>
  }

  lemma NextInv(s: State, s': State, ev: Event)
    requires Inv(s) && Next(s, s', ev)
    ensures Inv(s')
  {
    if ev.handed.Some? {
      CallFreeInv(s, s', ev.t, ev.handed.value);
    } else if !ev.quiescent {
      FreeStepInv(s, s', ev.t);
    } else if s.pcs[ev.t].QuietSetEpoch? {
      QSetEpochInv(s, s', ev.t);
    } else if s.pcs[ev.t].QuietClear? {
      QClearInv(s, s', ev.t);
    } else {
      QuiescentStepInv(s, s', ev.t);
    }
  }

  // ---------------------------------------------------------------------------------------------
  // What the source promises, in every state that satisfies the invariant
  // ---------------------------------------------------------------------------------------------

  lemma InvAssertions(s: State, t: nat)
    requires Inv(s) && t < |s.pcs|
    ensures s.pcs[t].QuietSub? ==> s.remaining >= 1
    ensures s.pcs[t].QuietLoadFirst? ==> s.lists.toFree1 != None
    ensures s.pcs[t].QuietStoreFirst? ==> s.pcs[t].second != None
    ensures s.epoch == s.locals[t] <==> s.era == s.eras[t]
    ensures s.eras[t] == s.era || s.eras[t] + 1 == s.era
  {
    WordInjective(s.era, s.eras[t]);
  }

  /** Threads whose 32-bit local epoch differs from the global one. */
  function Lagging(epoch: nat, locals: seq<nat>): nat {
    if locals == [] then 0
    else (if locals[|locals| - 1] != epoch then 1 else 0) + Lagging(epoch, locals[..|locals| - 1])
  }

  /** A grace period runs, and no thread is about to start or to end one. */
  ghost predicate GraceRuns(s: State) {
    s.lists.toFree1 != None && forall t :: 0 <= t < |s.pcs| ==> !Starts(s.pcs[t]) && !Finishes(s.pcs[t])
  }

  lemma {:induction false} LaggingIsBehind(epoch: nat, locals: seq<nat>, era: nat, eras: seq<nat>)
    requires Words(epoch, locals, era, eras)
    ensures Lagging(epoch, locals) == Behind(era, eras)
  {
    if locals != [] {
      var last := |locals| - 1;
      LaggingIsBehind(epoch, locals[..last], era, eras[..last]);
      WordInjective(era, eras[last]);
    }
  }

  lemma InvRemaining(s: State)
    requires Inv(s) && GraceRuns(s)
    ensures s.remaining == Lagging(s.epoch, s.locals) >= 1
  {
    LaggingIsBehind(s.epoch, s.locals, s.era, s.eras);
  }

  ghost predicate Outstanding(s: State, e: Entry) {
    e in s.lists.place && s.lists.place[e] != Out
  }

  /** The entry a thread has in its hands inside fev_qsbr_free(), not yet on a list. */
  ghost predicate CarriedBy(s: State, e: Entry, t: nat) {
    t < |s.pcs| && Carries(s.pcs[t]) && s.pcs[t].e == e
  }

  function Number(b: bool): nat {
    if b then 1 else 0
  }

  /** In how many places the entry is. */
  ghost function Places(s: State, e: Entry): nat {
    Number(e in s.lists.first) + Number(e in s.lists.second) + Number(e in s.lists.taken)
    + Number(exists t :: CarriedBy(s, e, t))
  }

  /** The three lists are what following the links gives, without repetition. */
  ghost predicate ListsLinked(s: State) {
    && Chain(s.lists.next, s.lists.toFree1, s.lists.first)
    && Chain(s.lists.next, s.lists.toFree2, s.lists.second)
    && Chain(s.lists.next, s.lists.takenHead, s.lists.taken)
    && Distinct(s.lists.first) && Distinct(s.lists.second) && Distinct(s.lists.taken)
  }

  lemma InvPlaces(s: State, e: Entry)
    requires Inv(s)
    ensures ListsLinked(s) && Places(s, e) == Number(Outstanding(s, e))
    ensures forall t, u :: CarriedBy(s, e, t) && CarriedBy(s, e, u) ==> t == u
  {
    if Outstanding(s, e) && s.lists.place[e].Transit? {
      assert CarriedBy(s, e, s.lists.place[e].t);
    }
  }

  lemma InvCollects(s: State)
    requires Inv(s) && forall t :: 0 <= t < |s.pcs| ==> s.pcs[t] == Idle
    ensures ListsLinked(s) && Distinct(s.lists.first + s.lists.second)
    ensures forall e :: e in s.lists.first + s.lists.second <==> Outstanding(s, e)
  {
    assert s.lists.taken == [];
    DistinctConcat(s.lists.first, s.lists.second);
    forall e | Outstanding(s, e) ensures e in s.lists.first + s.lists.second {
      InvPlaces(s, e);
    }
  }

  // ---------------------------------------------------------------------------------------------
  // Whole runs
  // ---------------------------------------------------------------------------------------------

  ghost predicate IsRun(states: seq<State>, events: seq<Event>) {
    && |states| == |events| + 1
    && Init(states[0])
    && forall i :: 0 <= i < |events| ==> Next(states[i], states[i + 1], events[i])
  }

  /** The step hands the entry back: it is on the list that fev_qsbr_quiescent() returns. */
  ghost predicate Returns(s: State, ev: Event, e: Entry) {
    ev.returned.Some? && exists list :: Chain(s.lists.next, ev.returned, list) && e in list
  }

  /** What a step does to the history, told by what it shows to the outside. */
  ghost predicate Effect(s: State, s': State, ev: Event) {
    && |s'.pcs| == |s.pcs| && ev.t < |s.pcs|
    && s'.clock.now == s.clock.now + 1
    && s'.clock.quiet == (if ev.quiescent && ev.t < |s.clock.quiet|
                          then s.clock.quiet[ev.t := s.clock.now + 1] else s.clock.quiet)
    && (if ev.handed.Some? then
          && s'.clock.handed == s.clock.handed[ev.handed.value := s.clock.now]
          && s'.clock.freer == s.clock.freer[ev.handed.value := ev.t]
        else
          s'.clock.handed == s.clock.handed && s'.clock.freer == s.clock.freer)
    && (forall e: Entry :: Outstanding(s', e) ==> Outstanding(s, e) || ev.handed == Some(e))
  }

  /** The entry that a thread carries to a list was freed before. */
  lemma PlaceEffect(s: State, s': State, ev: Event)
    requires Transits(s.pcs, s.lists.place)
    requires (Claim(s, s', ev.t) || Push(s, s', ev.t, true) || Push(s, s', ev.t, false))
    requires ev == Event(ev.t, false, None, None)
    ensures Effect(s, s', ev)
  {
    assert Carries(s.pcs[ev.t]);
    assert Outstanding(s, s.pcs[ev.t].e);
  }

  lemma FreeEffect(s: State, s': State, ev: Event)
    requires Transits(s.pcs, s.lists.place) && InFree(s, s', ev.t) && ev == Event(ev.t, false, None, None)
    ensures Effect(s, s', ev)
  {
    if s.pcs[ev.t].FreeClaim? || s.pcs[ev.t].FreePush? {
      PlaceEffect(s, s', ev);
    } else {
      assert s'.lists.place == s.lists.place;
    }
  }

  lemma ListEffect(s: State, s': State, ev: Event)
    requires ListsOk(s.lists) && (QGrab(s, s', ev.t, true) || QGrab(s, s', ev.t, false) || QStoreFirst(s, s', ev.t))
    requires ev == Event(ev.t, true, None, None)
    ensures Effect(s, s', ev)
  {
  }

  lemma QuiescentEffect(s: State, s': State, ev: Event)
    requires ListsOk(s.lists) && InQuiescent(s, s', ev.t) && ev == Event(ev.t, true, None, None)
    ensures Effect(s, s', ev)
  {
    if s.pcs[ev.t].QuietGrab? || s.pcs[ev.t].QuietStoreFirst? {
      ListEffect(s, s', ev);
    } else {
      assert s'.lists == s.lists;
    }
  }

  lemma NextEffect(s: State, s': State, ev: Event)
    requires Inv(s) && Next(s, s', ev)
    ensures Effect(s, s', ev)
  {
    if ev.handed == None {
      if !ev.quiescent {
        FreeEffect(s, s', ev);
      } else if !s.pcs[ev.t].QuietSetEpoch? && !s.pcs[ev.t].QuietClear? {
        QuiescentEffect(s, s', ev);
      }
    }
  }

  lemma ReturnedEntry(s: State, s': State, ev: Event, e: Entry)
    requires Inv(s) && Next(s, s', ev) && Returns(s, ev, e)
    ensures Outstanding(s, e) && !Outstanding(s', e)
    ensures forall t :: 0 <= t < |s.pcs| ==> Graced(s.clock, e, t)
  {
    var list := if s.pcs[ev.t].QuietClear? then s.lists.first else s.lists.taken;
    var l :| Chain(s.lists.next, ev.returned, l) && e in l;
    ChainUnique(s.lists.next, ev.returned, l, list);
    assert Waiting(s) == list;
  }

  /** The thread's last quiescent step before step `i`, if `when` is not 0, was the one before `when`. */
  ghost predicate QuietAt(events: seq<Event>, when: nat, t: nat, i: nat)
    requires i <= |events|
  {
    when > 0 ==> when <= i && events[when - 1].t == t && events[when - 1].quiescent
  }

  /** The history variables say what happened in the run so far. */
  ghost predicate Faithful(states: seq<State>, events: seq<Event>, i: nat)
    requires |states| == |events| + 1 && i < |states|
  {
    var s := states[i];
    && |s.pcs| == |states[0].pcs| == |s.clock.quiet| && s.clock.now == i
    && (forall t :: 0 <= t < |s.pcs| ==> QuietAt(events, s.clock.quiet[t], t, i))
    && (forall e :: Outstanding(s, e) ==> FreedAt(states, events, i, e))
  }

  ghost predicate FreedAt(states: seq<State>, events: seq<Event>, i: nat, e: Entry)
    requires |states| == |events| + 1 && i < |states|
  {
    var c := states[i].clock;
    && e in c.handed && e in c.freer && c.handed[e] < i
    && events[c.handed[e]].handed == Some(e) && events[c.handed[e]].t == c.freer[e]
    && forall j :: c.handed[e] <= j < i ==> !Returns(states[j], events[j], e)
  }

  lemma FaithfulStep(states: seq<State>, events: seq<Event>, i: nat)
    requires 0 < i < |states| == |events| + 1 && Faithful(states, events, i - 1)
    requires Effect(states[i - 1], states[i], events[i - 1])
    requires forall e :: Outstanding(states[i], e) ==> FreedAt(states, events, i, e)
    ensures Faithful(states, events, i)
  {
    forall t | 0 <= t < |states[i].pcs| ensures QuietAt(events, states[i].clock.quiet[t], t, i) {
      QuietStep(states[i - 1].clock, states[i].clock, events, i, t);
    }
  }

  lemma QuietStep(c: Clock, c': Clock, events: seq<Event>, i: nat, t: nat)
    requires 0 < i <= |events| && t < |c.quiet| && c.now == i - 1 && QuietAt(events, c.quiet[t], t, i - 1)
    requires var ev := events[i - 1];
             c'.quiet == (if ev.quiescent && ev.t < |c.quiet| then c.quiet[ev.t := c.now + 1] else c.quiet)
    ensures QuietAt(events, c'.quiet[t], t, i)
  {
  }

  lemma {:induction false} RunIsFaithful(states: seq<State>, events: seq<Event>, i: nat)
    requires IsRun(states, events) && i < |states|
    ensures Inv(states[i]) && Faithful(states, events, i)
  {
    if i == 0 {
      InitInv(states[0]);
    } else {
      RunIsFaithful(states, events, i - 1);
      NextInv(states[i - 1], states[i], events[i - 1]);
      NextEffect(states[i - 1], states[i], events[i - 1]);
      forall e | Outstanding(states[i], e) ensures FreedAt(states, events, i, e) {
        FreedAtLater(states, events, i, e);
      }
      FaithfulStep(states, events, i);
    }
  }

  lemma FreedAtLater(states: seq<State>, events: seq<Event>, i: nat, e: Entry)
    requires 0 < i < |states| == |events| + 1 && Inv(states[i - 1])
    requires Next(states[i - 1], states[i], events[i - 1]) && Effect(states[i - 1], states[i], events[i - 1])
    requires Outstanding(states[i], e) && states[i - 1].clock.now == i - 1
    requires Outstanding(states[i - 1], e) ==> FreedAt(states, events, i - 1, e)
    ensures FreedAt(states, events, i, e)
  {
    if Returns(states[i - 1], events[i - 1], e) {
      ReturnedEntry(states[i - 1], states[i], events[i - 1], e);
    }
  }

  lemma ReachableInv(states: seq<State>, events: seq<Event>, i: nat)
    requires IsRun(states, events) && i < |states|
    ensures Inv(states[i])
  {
    RunIsFaithful(states, events, i);
  }

  /** The assertions at src/fev_qsbr.h:110, 114 and 121, and the comparison at line 104. */
  lemma AssertionsHold(states: seq<State>, events: seq<Event>, i: nat, t: nat)
    requires IsRun(states, events) && i < |states| && t < |states[i].pcs|
    ensures var s := states[i];
            && |s.locals| == |s.eras| == |s.pcs|
            && (s.pcs[t].QuietSub? ==> s.remaining >= 1)
            && (s.pcs[t].QuietLoadFirst? ==> s.lists.toFree1 != None)
            && (s.pcs[t].QuietStoreFirst? ==> s.pcs[t].second != None)
            && (s.epoch == s.locals[t] <==> s.era == s.eras[t])
            && (s.eras[t] == s.era || s.eras[t] + 1 == s.era)
  {
    ReachableInv(states, events, i);
    InvAssertions(states[i], t);
  }

  /** While a grace period runs, num_remaining counts the threads that have not acknowledged it. */
  lemma RemainingCounts(states: seq<State>, events: seq<Event>, i: nat)
    requires IsRun(states, events) && i < |states| && GraceRuns(states[i])
    ensures states[i].remaining == Lagging(states[i].epoch, states[i].locals) >= 1
  {
    ReachableInv(states, events, i);
    InvRemaining(states[i]);
  }

  /**
   * An entry that was freed and not yet returned is in exactly one place: the list at to_free1, the
   * list at to_free2, the list in the hands of the thread that ends the grace period, or one thread
   * inside fev_qsbr_free(); and it is there once.
   */
  lemma OnePlace(states: seq<State>, events: seq<Event>, i: nat, e: Entry)
    requires IsRun(states, events) && i < |states|
    ensures ListsLinked(states[i]) && Places(states[i], e) == Number(Outstanding(states[i], e))
    ensures forall t, u :: CarriedBy(states[i], e, t) && CarriedBy(states[i], e, u) ==> t == u
  {
    ReachableInv(states, events, i);
    InvPlaces(states[i], e);
  }

  /** fev_qsbr_fini_global(), called when no thread is inside a call, collects all that is left. */
  lemma FiniCollects(states: seq<State>, events: seq<Event>, i: nat)
    requires IsRun(states, events) && i < |states|
    requires forall t :: 0 <= t < |states[i].pcs| ==> states[i].pcs[t] == Idle
    ensures var l := states[i].lists;
            && Chain(l.next, l.toFree1, l.first) && Chain(l.next, l.toFree2, l.second)
            && Distinct(l.first + l.second)
            && forall e :: e in l.first + l.second <==> Outstanding(states[i], e)
  {
    ReachableInv(states, events, i);
    InvCollects(states[i]);
  }

  /**
   * Grace period. When fev_qsbr_quiescent() returns an entry, the entry was handed to
   * fev_qsbr_free() at some earlier step and not returned since, and every thread other than the
   * one that freed it made a step inside fev_qsbr_quiescent() after it was handed over.
   */
  lemma GracePeriod(states: seq<State>, events: seq<Event>, i: nat, e: Entry)
    requires IsRun(states, events) && i < |events| && Returns(states[i], events[i], e)
    ensures exists h :: 0 <= h < i && ElapsedSince(states, events, h, i, e)
  {
    RunIsFaithful(states, events, i);
    ReturnedEntry(states[i], states[i + 1], events[i], e);
    var c := states[i].clock;
    var h := c.handed[e];
    forall t | 0 <= t < |states[0].pcs| && t != events[h].t ensures QuietBetween(events, h, i, t) {
      assert Graced(c, e, t);
      assert QuietAt(events, c.quiet[t], t, i);
    }
    assert ElapsedSince(states, events, h, i, e);
  }

  ghost predicate QuietBetween(events: seq<Event>, h: nat, i: nat, t: nat)
    requires i <= |events|
  {
    exists j :: h < j < i && events[j].t == t && events[j].quiescent
  }

  ghost predicate ElapsedSince(states: seq<State>, events: seq<Event>, h: nat, i: nat, e: Entry)
    requires |states| == |events| + 1 && h < i < |events|
  {
    && events[h].handed == Some(e)
    && (forall j :: h <= j < i ==> !Returns(states[j], events[j], e))
    && (forall t :: 0 <= t < |states[0].pcs| && t != events[h].t ==> QuietBetween(events, h, i, t))
  }

  /** An entry is returned once per time it is freed. */
  lemma ReturnedOnce(states: seq<State>, events: seq<Event>, i: nat, k: nat, e: Entry)
    requires IsRun(states, events) && i < k < |events|
    requires Returns(states[i], events[i], e) && Returns(states[k], events[k], e)
    ensures exists h :: i < h < k && events[h].handed == Some(e)
  {
    RunIsFaithful(states, events, k);
    ReturnedEntry(states[k], states[k + 1], events[k], e);
    assert FreedAt(states, events, k, e);
    assert events[states[k].clock.handed[e]].handed == Some(e);
    RunIsFaithful(states, events, i);
    ReturnedEntry(states[i], states[i + 1], events[i], e);
  }
}
