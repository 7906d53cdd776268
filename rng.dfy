/**
 * The engine's pseudo-random generator and the shuffle built on it.
 *
 * The generator is the linear congruential step
 * `seed := (seed * 214013 + 2531011) mod 2^31` (the C code masks with
 * `2^31 - 1`, which on two's complement values is the same as a
 * non-negative remainder); a draw takes the top five bits of the 31-bit
 * seed, so it is always below 32 whatever bound the caller asks for.
 */
module Rng {
  const Modulus: int := 0x8000_0000
  const Multiplier: int := 214013
  const Increment: int := 2531011
  /** `seed >> 26` keeps the top 5 of 31 bits. */
  const TopShift: int := 0x400_0000
  /** Draws before the generator has run through its whole period. */
  const Period: int := 0x8000_0000

  /** One generator step. */
  function Next(seed: int): (r: int)
    ensures 0 <= r < Modulus
  {
    (seed * Multiplier + Increment) % Modulus
  }

  /** The value a draw yields for a seed in range. */
  function Top(seed: int): (v: int)
    requires 0 <= seed < Modulus
    ensures 0 <= v < 32
    ensures v * TopShift <= seed < (v + 1) * TopShift
  {
    seed / TopShift
  }

  datatype Draw = Draw(value: int, seed: int)

  /**
   * rnd(max): step until the drawn value is at most `max`.  The loop is
   * followed for at most `fuel` steps; the engine runs it for one period.
   */
  function RndFrom(seed: int, max: int, fuel: nat): (d: Draw)
    requires 0 < fuel
    ensures 0 <= d.value < 32 && 0 <= d.seed < Modulus
    decreases fuel
  {
    var s := Next(seed);
    if Top(s) <= max || fuel == 1 then Draw(Top(s), s) else RndFrom(s, max, fuel - 1)
  }

  function Rnd(seed: int, max: int): (d: Draw)
    ensures 0 <= d.value < 32 && 0 <= d.seed < Modulus
  {
    RndFrom(seed, max, Period)
  }

  /** A draw the loop ends normally on is at most `max`; one it was cut off on is the value after `fuel` steps. */
  lemma {:induction false} RndFromBound(seed: int, max: int, fuel: nat)
    requires 0 < fuel
    ensures RndFrom(seed, max, fuel).value <= max || StepsAllAbove(seed, max, fuel)
    decreases fuel
  {
    var s := Next(seed);
    if !(Top(s) <= max) && fuel > 1 {
      RndFromBound(s, max, fuel - 1);
    }
  }

  /** Every one of the next `n` draws from `seed` is above `max`. */
  predicate StepsAllAbove(seed: int, max: int, n: nat)
    decreases n
  {
    n == 0 || (Top(Next(seed)) > max && StepsAllAbove(Next(seed), max, n - 1))
  }

  /** For every bound of 31 or more the first draw is taken. */
  lemma RndWideBound(seed: int, max: int)
    requires max >= 31
    ensures Rnd(seed, max) == Draw(Top(Next(seed)), Next(seed))
  {
  }

  function Swap(deck: seq<int>, i: int, j: int): (r: seq<int>)
    requires 0 <= i < |deck| && 0 <= j < |deck|
    ensures |r| == |deck| && r[i] == deck[j] && r[j] == deck[i]
    ensures forall k :: 0 <= k < |deck| && k != i && k != j ==> r[k] == deck[k]
    ensures multiset(r) == multiset(deck)
  {
    deck[i := deck[j]][j := deck[i]]
  }

  datatype Shuffled = Shuffled(deck: seq<int>, seed: int)

  /**
   * The Fisher-Yates pass of shuffle_and_deal from position `i` down to 1:
   * position `i` is swapped with a draw bounded by `i`.  Draws never exceed
   * 31, so the swap stays inside the deck even were a draw cut off.
   */
  function ShuffleFrom(deck: seq<int>, i: int, seed: int): (r: Shuffled)
    requires i < |deck| && 32 <= |deck|
    ensures |r.deck| == |deck| && multiset(r.deck) == multiset(deck)
    decreases i
  {
    if i < 1 then Shuffled(deck, seed)
    else
      var d := Rnd(seed, i);
      ShuffleFrom(Swap(deck, i, d.value), i - 1, d.seed)
  }

  /** The ordered deck 0..n-1. */
  function Ordered(n: nat): (r: seq<int>)
    ensures |r| == n && forall k :: 0 <= k < n ==> r[k] == k
  {
    seq(n, k => k)
  }

  /** A permutation of the ordered deck holds each card value 0..n-1 exactly once. */
  lemma PermutationHoldsEachOnce(deck: seq<int>, n: nat)
    requires multiset(deck) == multiset(Ordered(n))
    ensures |deck| == n
    ensures forall c :: 0 <= c < n ==> multiset(deck)[c] == 1
    ensures forall k :: 0 <= k < |deck| ==> 0 <= deck[k] < n
  {
    assert |deck| == |multiset(deck)| == |multiset(Ordered(n))| == n;
    forall c | 0 <= c < n ensures multiset(deck)[c] == 1 {
      OrderedCount(n, c);
    }
    forall k | 0 <= k < |deck| ensures 0 <= deck[k] < n {
      assert deck[k] in multiset(deck);
      assert deck[k] in multiset(Ordered(n));
      assert deck[k] in Ordered(n);
    }
  }

  lemma {:induction false} OrderedCount(n: nat, c: int)
    requires 0 <= c < n
    ensures multiset(Ordered(n))[c] == 1
  {
    if n - 1 == c {
      assert Ordered(n) == Ordered(n - 1) + [c];
      assert c !in Ordered(n - 1);
    } else {
      assert Ordered(n) == Ordered(n - 1) + [n - 1];
      OrderedCount(n - 1, c);
    }
  }
}
