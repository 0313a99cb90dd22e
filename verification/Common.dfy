/** Facts about finite sets, sequences and machine words that several models share. */
module Common {

  datatype Option<+T> = None | Some(value: T)

  /** Number of values of a uint32_t. */
  const WORD: nat := 0x1_0000_0000

  /** What a uint32_t holds after a computation with the exact result `x`. */
  function Word(x: int): (w: nat)
    ensures w < WORD
  {
    x % WORD
  }

  /** Two exact values fewer than 2^32 apart are told apart by their 32-bit images. */
  lemma WordInjective(x: int, y: int)
    requires x - y < WORD && y - x < WORD
    ensures Word(x) == Word(y) <==> x == y
  {
  }

  /** A counter as the model counts, or as the code sees it in 32 bits. */
  function Seen(exact: bool, x: int): int {
    if exact then x else Word(x)
  }

  lemma WordSmall(x: nat)
    requires x < WORD
    ensures Word(x) == x
  {
  }

  lemma WordDifference(a: nat, b: nat)
    ensures Word(Word(a) - Word(b)) == Word(a - b)
  {
    assert a - b == Word(a) - Word(b) + (a / WORD - b / WORD) * WORD;
    WordPeriodic(Word(a) - Word(b), a / WORD - b / WORD);
  }

  lemma WordPeriodic(x: int, k: int)
    ensures Word(x + k * WORD) == Word(x)
  {
  }

  lemma WordSucc(x: int)
    ensures Word(Word(x) + 1) == Word(x + 1)
    ensures Word(Word(x) - 1) == Word(x - 1)
  {
  }

  ghost predicate Distinct<T(!new)>(s: seq<T>) {
    forall i, j :: 0 <= i < j < |s| ==> s[i] != s[j]
  }

  lemma DistinctConcat<T(!new)>(a: seq<T>, b: seq<T>)
    requires Distinct(a) && Distinct(b) && forall x :: x in a ==> x !in b
    ensures Distinct(a + b)
  {
    var s := a + b;
    forall i, j | 0 <= i < j < |s| ensures s[i] != s[j] {
      if i < |a| <= j {
        assert s[i] in a && s[j] in b;
      }
    }
  }

  /** How many flags are set. */
  function Count(flags: seq<bool>): (n: nat)
    ensures n <= |flags|
  {
    if flags == [] then 0 else Count(flags[..|flags| - 1]) + (if flags[|flags| - 1] then 1 else 0)
  }

  lemma CountAppend(flags: seq<bool>, flag: bool)
    ensures Count(flags + [flag]) == Count(flags) + (if flag then 1 else 0)
  {
    assert (flags + [flag])[..|flags|] == flags;
  }

  lemma {:induction false} CountUpdate(flags: seq<bool>, i: nat, flag: bool)
    requires i < |flags|
    ensures Count(flags[i := flag]) == Count(flags) - (if flags[i] then 1 else 0) + (if flag then 1 else 0)
  {
    var last := |flags| - 1;
    if i == last {
      assert flags[i := flag][..last] == flags[..last];
    } else {
      CountUpdate(flags[..last], i, flag);
      assert flags[i := flag][..last] == flags[..last][i := flag];
    }
  }

  function Sum(terms: seq<int>): int {
    if terms == [] then 0 else Sum(terms[..|terms| - 1]) + terms[|terms| - 1]
  }

  lemma {:induction false} SumUpdate(terms: seq<int>, i: nat, term: int)
    requires i < |terms|
    ensures Sum(terms[i := term]) == Sum(terms) - terms[i] + term
  {
    var last := |terms| - 1;
    if i == last {
      assert terms[i := term][..last] == terms[..last];
    } else {
      SumUpdate(terms[..last], i, term);
      assert terms[i := term][..last] == terms[..last][i := term];
    }
  }

  lemma {:induction false} SumOfZeros(terms: seq<int>)
    requires forall i :: 0 <= i < |terms| ==> terms[i] == 0
    ensures Sum(terms) == 0
  {
    if terms != [] {
      SumOfZeros(terms[..|terms| - 1]);
    }
  }

  // Positions of a ring buffer with `n` slots; position `p` uses slot p % n.

  lemma Laps(n: nat, a: nat, b: nat)
    ensures a == b || a * n + n <= b * n || b * n + n <= a * n
  {
    if a < b {
      assert b * n >= (a + 1) * n;
    } else if b < a {
      assert a * n >= (b + 1) * n;
    }
  }

  /** Different positions that share a slot are at least a whole lap apart. */
  lemma SameSlot(n: nat, p: nat, q: nat)
    requires n > 0 && p % n == q % n
    ensures p == q || p + n <= q || q + n <= p
  {
    assert p == p / n * n + p % n && q == q / n * n + q % n;
    Laps(n, p / n, q / n);
  }

  lemma NextLap(n: nat, p: nat)
    requires n > 0
    ensures (p + n) % n == p % n
  {
    var q := p + n;
    assert p == p / n * n + p % n && q == q / n * n + q % n;
    assert (p / n + 1) * n == p / n * n + n;
    Laps(n, p / n + 1, q / n);
  }

  lemma ManyLaps(n: nat, p: nat, k: nat)
    requires n > 0
    ensures (p + k * n) % n == p % n
  {
    var q := p + k * n;
    assert p == p / n * n + p % n && q == q / n * n + q % n;
    assert (p / n + k) * n == p / n * n + k * n;
    Laps(n, p / n + k, q / n);
  }

  /** With a number of slots that divides 2^32, a position's word uses the same slot. */
  lemma WordSlot(n: nat, p: nat)
    requires n > 0 && WORD % n == 0
    ensures Word(p) % n == p % n
  {
    var laps, rounds := WORD / n, p / WORD;
    assert WORD == laps * n;
    assert p == Word(p) + rounds * WORD;
    assert rounds * WORD == rounds * laps * n;
    ManyLaps(n, Word(p), rounds * laps);
  }
}
