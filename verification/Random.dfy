/** The random generator: two 16-bit multiply-with-carry steps on the halves of one seed. */
module Random {
  import opened Common

  const WORD := 0x1_0000_0000
  const B := 0x1_0000
  const A1 := 36969
  const A2 := 18000

  /** One multiply-with-carry step: the low half times the multiplier, plus the high half. */
  function Step(a: nat, x: nat): nat {
    a * (x % B) + x / B
  }

  /** Neither multiplier makes the 32-bit product and sum wrap. */
  lemma StepFits(a: nat, x: Word)
    requires a == A1 || a == A2
    ensures Step(a, x) < WORD
  {
  }

  /** The modulus the first step works in. */
  const M := A1 * B - 1

  /** The step divides by B modulo M: B times the result is the argument plus a multiple of M. */
  lemma StepIsDivision(x: nat)
    ensures B * Step(A1, x) == x + M * (x % B)
  {
  }

  /** What undoes the step: multiplication by B modulo M. */
  function Undo(y: nat): nat {
    (B * y) % M
  }

  lemma ModuloMultiple(x: nat, k: nat)
    requires x < M
    ensures (x + M * k) % M == x
  {
    assert x + M * k == M * k + x;
    assert (M * k + x) / M == k by {
      var q := (M * k + x) / M;
      assert M * k + x == M * q + (M * k + x) % M;
      assert M * (q - k) == x - (M * k + x) % M;
    }
  }

  /** The first step permutes 1..M-1, and multiplying by B modulo M is its inverse. */
  lemma StepPermutes(x: nat)
    requires 1 <= x < M
    ensures 1 <= Step(A1, x) < M
    ensures Undo(Step(A1, x)) == x
  {
    StepIsDivision(x);
    ModuloMultiple(x, x % B);
  }

  /** Every value of the range is the step of exactly one: the word with the halves of its quotient by A1. */
  lemma StepIsOnto(y: nat)
    requires 1 <= y < M
    ensures var x := (y % A1) * B + y / A1; 1 <= x < M && Step(A1, x) == y && Undo(y) == x
  {
    var x := (y % A1) * B + y / A1;
    assert y / A1 < B;
    assert x % B == y / A1 && x / B == y % A1;
    assert Step(A1, x) == y;
    assert x < M;
    StepPermutes(x);
  }

  function Iterate(x: nat, n: nat): nat {
    if n == 0 then x else Step(A1, Iterate(x, n - 1))
  }

  function UndoTimes(y: nat, n: nat): nat
    decreases n
  {
    if n == 0 then y else UndoTimes(Undo(y), n - 1)
  }

  /** No number of steps from a seed in range leaves the range, in particular none reaches 0;
      and as many inverse steps lead back to the seed. */
  lemma {:induction false} OrbitStaysAndReturns(x: nat, n: nat)
    requires 1 <= x < M
    ensures 1 <= Iterate(x, n) < M && UndoTimes(Iterate(x, n), n) == x
  {
    if n > 0 {
      OrbitStaysAndReturns(x, n - 1);
      StepPermutes(Iterate(x, n - 1));
    }
  }

  // ---------- The orbit closes ----------

  lemma {:induction false} BelowHasSize(s: set<nat>, m: nat)
    requires forall y :: y in s ==> 1 <= y <= m
    ensures |s| <= m
  {
    if m == 0 {
      assert s == {};
    } else {
      BelowHasSize(s - {m}, m - 1);
      assert s <= (s - {m}) + {m};
    }
  }

  ghost function Visited(x: nat, n: nat): set<nat> {
    if n == 0 then {} else Visited(x, n - 1) + {Iterate(x, n - 1)}
  }

  lemma {:induction false} FirstVisit(x: nat, n: nat, y: nat) returns (i: nat)
    requires y in Visited(x, n)
    ensures i < n && Iterate(x, i) == y
  {
    if y == Iterate(x, n - 1) {
      i := n - 1;
    } else {
      i := FirstVisit(x, n - 1, y);
    }
  }

  /** Two visits to one value mean that the seed itself came back. */
  lemma {:induction false} RepeatMeansReturn(x: nat, i: nat, j: nat)
    requires 1 <= x < M && i < j && Iterate(x, i) == Iterate(x, j)
    ensures Iterate(x, j - i) == x
  {
    if i > 0 {
      OrbitStaysAndReturns(x, i - 1);
      OrbitStaysAndReturns(x, j - 1);
      StepPermutes(Iterate(x, i - 1));
      StepPermutes(Iterate(x, j - 1));
      RepeatMeansReturn(x, i - 1, j - 1);
    }
  }

  /** Either the seed comes back within n steps, after k of them, or n different values were visited. */
  lemma {:induction false} EitherReturnsOrGrows(x: nat, n: nat) returns (k: nat)
    requires 1 <= x < M
    ensures k == 0 ==> |Visited(x, n)| == n
    ensures k > 0 ==> k <= n && Iterate(x, k) == x
  {
    k := 0;
    if n > 0 {
      k := EitherReturnsOrGrows(x, n - 1);
      var y := Iterate(x, n - 1);
      if k == 0 && y in Visited(x, n - 1) {
        var i := FirstVisit(x, n - 1, y);
        RepeatMeansReturn(x, i, n - 1);
        k := n - 1 - i;
      }
    }
  }

  lemma {:induction false} VisitedInRange(x: nat, n: nat)
    requires 1 <= x < M
    ensures forall y :: y in Visited(x, n) ==> 1 <= y <= M - 1
  {
    if n > 0 {
      VisitedInRange(x, n - 1);
      OrbitStaysAndReturns(x, n - 1);
    }
  }

  /** The sequence of seeds is purely periodic: every seed in range comes back. */
  lemma SeedComesBack(x: nat) returns (k: nat)
    requires 1 <= x < M
    ensures 1 <= k <= M && Iterate(x, k) == x
  {
    k := EitherReturnsOrGrows(x, M);
    VisitedInRange(x, M);
    BelowHasSize(Visited(x, M), M - 1);
  }

  // ---------- The generator ----------

  /** The scaling factor, a little below one over 2 to the 32nd. */
  const SCALE: real := 0.0000000002328306435454494

  /** The 32-bit word the output is scaled from. */
  function Mix(seed1: Word, seed2: Word): Word {
    ((seed1 * B) % WORD + seed1 / B + seed2) % WORD
  }

  /** The word with its halves exchanged, to which the high word of the seed is added. */
  lemma MixExchanges(low: nat, high: nat, seed2: Word)
    requires low < B && high < B
    ensures high * B + low < WORD && Mix(high * B + low, seed2) == (low * B + high + seed2) % WORD
  {
    var x := high * B + low;
    assert x * B == high * WORD + low * B;
    assert (x * B) % WORD == low * B;
    assert x / B == high;
  }

  /** The word with its halves exchanged. */
  function Exchanged(x: Word): (y: Word)
    ensures y % B == x / B && y / B == x % B
  {
    x % B * B + x / B
  }

  /** With the high word 0, what is scaled is the low word with its halves exchanged. */
  lemma MixIsExchange(x: Word)
    ensures Mix(x, 0) == Exchanged(x)
  {
    MixExchanges(x % B, x / B, 0);
  }

  lemma ExchangedTwice(x: Word)
    ensures Exchanged(Exchanged(x)) == x
  {
  }

  /** The two halves of the seed: low word, high word. */
  datatype Seed = Seed(seed1: Word, seed2: Word)

  /** What a call returns, once the seed has moved. */
  function Output(s: Seed): (u: real)
    ensures 0.0 < u < 1.0
  {
    (Mix(s.seed1, s.seed2) + 1) as real * SCALE
  }

  /** What a call makes of the seed, given the number a reseeding would draw. */
  function Draw(s: Seed, random: nat): Seed
    requires random < 0x8000_0000
  {
    var t := if s == Seed(0, 0) then Seed(random, 0) else s;
    StepFits(A1, t.seed1);
    StepFits(A2, t.seed2);
    Seed(Step(A1, t.seed1), Step(A2, t.seed2))
  }

  function Draws(s: Seed, randoms: seq<nat>, n: nat): Seed
    requires n <= |randoms| && forall i :: 0 <= i < n ==> randoms[i] < 0x8000_0000
  {
    if n == 0 then s else Draw(Draws(s, randoms, n - 1), randoms[n - 1])
  }

  /** Once seeded with anything but 0, the generator never needs a new seed: after n calls the
      low word is the n-th iterate, not 0 and in range, and the high word has stayed 0. */
  lemma {:induction false} NeverReseeded(x: nat, randoms: seq<nat>, n: nat)
    requires 1 <= x < M && n <= |randoms| && forall i :: 0 <= i < n ==> randoms[i] < 0x8000_0000
    ensures Draws(Seed(x, 0), randoms, n).seed2 == 0
    ensures Draws(Seed(x, 0), randoms, n).seed1 == Iterate(x, n)
    ensures Draws(Seed(x, 0), randoms, n) != Seed(0, 0)
  {
    if n > 0 {
      NeverReseeded(x, randoms, n - 1);
      OrbitStaysAndReturns(x, n - 1);
    }
    OrbitStaysAndReturns(x, n);
  }

  /** As long as the C library's generator gives 0, the seed stays 0 and asks again. */
  lemma {:induction false} ZeroStaysUnseeded(randoms: seq<nat>, n: nat)
    requires n <= |randoms| && forall i :: 0 <= i < n ==> randoms[i] == 0
    ensures Draws(Seed(0, 0), randoms, n) == Seed(0, 0)
  {
    if n > 0 { ZeroStaysUnseeded(randoms, n - 1); }
  }

  /** A thread's calls from the first on: once the C library's generator gives a number x that is
      not 0, the low word runs through the iterates of x, and the high word stays 0. */
  lemma {:induction false} FreshRun(randoms: seq<nat>, k: nat, n: nat)
    requires k < n <= |randoms| && forall i :: 0 <= i < n ==> randoms[i] < 0x8000_0000
    requires randoms[k] != 0 && forall i :: 0 <= i < k ==> randoms[i] == 0
    ensures 1 <= Iterate(randoms[k], n - k) < M && Draws(Seed(0, 0), randoms, n) == Seed(Iterate(randoms[k], n - k), 0)
  {
    OrbitStaysAndReturns(randoms[k], n - k);
    if k == n - 1 {
      ZeroStaysUnseeded(randoms, k);
      assert Iterate(randoms[k], 1) == Step(A1, Iterate(randoms[k], 0));
    } else {
      FreshRun(randoms, k, n - 1);
    }
  }

  /** And what they return: the iterate with its halves exchanged, scaled; so two calls return the
      same number only where the sequence of seeds repeats. */
  lemma FreshOutput(randoms: seq<nat>, k: nat, n: nat)
    requires k < n <= |randoms| && forall i :: 0 <= i < n ==> randoms[i] < 0x8000_0000
    requires randoms[k] != 0 && forall i :: 0 <= i < k ==> randoms[i] == 0
    ensures var x := Iterate(randoms[k], n - k);
            Output(Draws(Seed(0, 0), randoms, n)) == (x % 65536 * 65536 + x / 65536 + 1) as real * SCALE
  {
    FreshRun(randoms, k, n);
    MixIsExchange(Iterate(randoms[k], n - k));
  }

  /** Different low words give different outputs: exchanging is undone by exchanging again. */
  lemma OutputsDiffer(x: Word, y: Word)
    requires x != y
    ensures Output(Seed(x, 0)) != Output(Seed(y, 0))
  {
    MixIsExchange(x);
    MixIsExchange(y);
    ExchangedTwice(x);
    ExchangedTwice(y);
    assert (Mix(x, 0) - Mix(y, 0)) as real * SCALE == Output(Seed(x, 0)) - Output(Seed(y, 0));
  }

  /** A thread's generator. */
  class Generator {
    var seed1: Word
    var seed2: Word

    constructor ()
      ensures S() == Seed(0, 0)
    {
      seed1, seed2 := 0, 0;
    }

    function S(): Seed
      reads this
    {
      Seed(seed1, seed2)
    }

    /** A uniform random number, strictly between 0 and 1; random is what the C library's
        generator would give if it were asked. */
    method Random(random: nat) returns (u: real)
      requires random < 0x8000_0000
      modifies this
      ensures S() == Draw(old(S()), random)
      ensures u == Output(S())
    {
      if seed1 == 0 && seed2 == 0 {
        seed1 := random;
      }
      StepFits(A1, seed1);
      StepFits(A2, seed2);
      seed1 := A1 * (seed1 % B) + seed1 / B;
      seed2 := A2 * (seed2 % B) + seed2 / B;
      u := (Mix(seed1, seed2) + 1) as real * SCALE;
    }
  }
}
