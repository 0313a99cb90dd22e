/**
 * Points in time (src/fev_time.h). The clock's reading is a parameter. A valid timespec has a
 * non-negative second and a nanosecond below 10^9; Ns is what it stands for.
 */
module Time {
  const NSECS_PER_SEC: int := 1_000_000_000
  const UINT64_MAX: int := 0xFFFF_FFFF_FFFF_FFFF

  datatype Timespec = Timespec(sec: int, nsec: int)

  predicate IsValid(t: Timespec) {
    t.sec >= 0 && 0 <= t.nsec < NSECS_PER_SEC
  }

  type Time = t: Timespec | IsValid(t) witness Timespec(0, 0)

  /** Nanoseconds since the clock's origin. */
  function Ns(t: Time): nat {
    t.sec * NSECS_PER_SEC + t.nsec
  }

  lemma NsInjective(a: Time, b: Time)
    requires Ns(a) == Ns(b)
    ensures a == b
  {
  }

  /** The order that the timer heap relies on is the order of the points in time. */
  function Cmp(lhs: Time, rhs: Time): (c: int)
    ensures c < 0 <==> Ns(lhs) < Ns(rhs)
    ensures c == 0 <==> lhs == rhs
    ensures c > 0 <==> Ns(lhs) > Ns(rhs)
  {
    if lhs.sec != rhs.sec then lhs.sec - rhs.sec else lhs.nsec - rhs.nsec
  }

  /** How long it is from `now` to `abs`; nothing if `abs` is not in the future. */
  function AbsToRel(now: Time, abs: Time): (rel: Time)
    ensures Ns(rel) == if Ns(abs) > Ns(now) then Ns(abs) - Ns(now) else 0
  {
    if Cmp(now, abs) >= 0 then Timespec(0, 0)
    else
      var sec, nsec := abs.sec - now.sec, abs.nsec - now.nsec;
      if nsec < 0 then Timespec(sec - 1, nsec + NSECS_PER_SEC) else Timespec(sec, nsec)
  }

  function AbsSinceNow(now: Time, rel: Time): (abs: Time)
    ensures Ns(abs) == Ns(now) + Ns(rel)
  {
    Timespec(now.sec + rel.sec + (now.nsec + rel.nsec) / NSECS_PER_SEC, (now.nsec + rel.nsec) % NSECS_PER_SEC)
  }

  /** With an unchanged clock the two conversions undo each other. */
  lemma RoundTrip(now: Time, rel: Time)
    ensures AbsToRel(now, AbsSinceNow(now, rel)) == rel
  {
    NsInjective(AbsToRel(now, AbsSinceNow(now, rel)), rel);
  }

  lemma RoundTripAbs(now: Time, abs: Time)
    ensures AbsSinceNow(now, AbsToRel(now, abs)) == if Cmp(abs, now) > 0 then abs else now
  {
    NsInjective(AbsSinceNow(now, AbsToRel(now, abs)), if Cmp(abs, now) > 0 then abs else now);
  }

  /** The number of nanoseconds in 64 bits, saturating; the second addition wraps around. */
  function ToNs(t: Time): (ns: nat)
    ensures ns == if Ns(t) <= UINT64_MAX then Ns(t) else UINT64_MAX
  {
    var x := if t.sec > UINT64_MAX / NSECS_PER_SEC then UINT64_MAX else t.sec * NSECS_PER_SEC;
    var sum := (x + t.nsec) % (UINT64_MAX + 1);
    if sum < x then UINT64_MAX else sum
  }
}
