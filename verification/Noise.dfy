/** Random quantities drawn from the generator. The logarithm and the power function of the C
    library are parameters, of which only the signs matter. */
module Noise {
  import Random

  /** The seed has moved by one call. */
  ghost predicate Moved(s: Random.Seed, t: Random.Seed) {
    exists random: nat :: Moves(s, random, t)
  }

  ghost predicate Moves(s: Random.Seed, random: nat, t: Random.Seed) {
    random < 0x8000_0000 && t == Random.Draw(s, random)
  }

  /** x comes from the number u by inversion, as an exponential number of the given mean. */
  predicate Inverts(mean: real, x: real, ln: real -> real, u: real) {
    0.0 < u < 1.0 && x == -mean * ln(1.0 - u)
  }

  ghost predicate Drawn(mean: real, x: real, ln: real -> real) {
    exists u :: Inverts(mean, x, ln, u)
  }

  /** A path gain: the base times ten to the power of the number u. */
  predicate OnPathAt(base: real, gain: real, pow10: real -> real, u: real) {
    0.0 < u < 1.0 && gain == base * pow10(u)
  }

  ghost predicate OnPath(base: real, gain: real, pow10: real -> real) {
    exists u :: OnPathAt(base, gain, pow10, u)
  }

  class Source {
    const generator: Random.Generator
    const ln: real -> real
    const pow10: real -> real

    constructor (ln: real -> real, pow10: real -> real)
      requires forall u :: 0.0 < u < 1.0 ==> ln(u) < 0.0
      requires forall u :: pow10(u) > 0.0
      ensures Valid() && fresh(generator)
    {
      this.ln, this.pow10 := ln, pow10;
      generator := new Random.Generator();
    }

    ghost predicate Valid() {
      && (forall u :: 0.0 < u < 1.0 ==> ln(u) < 0.0)
      && (forall u :: pow10(u) > 0.0)
    }

    /** A number between 0 and 1: the generator's output, once its seed has moved. */
    method Uniform() returns (u: real)
      modifies generator
      ensures Moved(old(generator.S()), generator.S()) && u == Random.Output(generator.S())
    {
      var random: nat :| random < 0x8000_0000;
      u := generator.Random(random);
      assert Moves(old(generator.S()), random, generator.S());
    }

    /** An exponential random number, by inversion of one output; the program exits on a negative mean. */
    method Expent(mean: real) returns (x: real)
      requires Valid() && mean >= 0.0
      modifies generator
      ensures Moved(old(generator.S()), generator.S()) && Inverts(mean, x, ln, Random.Output(generator.S()))
      ensures x >= 0.0 && (mean > 0.0 ==> x > 0.0) && Drawn(mean, x, ln)
    {
      var u := Uniform();
      var l := ln(1.0 - u);
      x := -mean * l;
      assert mean > 0.0 ==> mean * (-l) > 0.0;
      assert Inverts(mean, x, ln, Random.Output(generator.S()));
    }

    /** A path gain: a positive base times ten to the power of one output. */
    method Gain(base: real) returns (g: real)
      requires Valid() && base > 0.0
      modifies generator
      ensures Moved(old(generator.S()), generator.S()) && OnPathAt(base, g, pow10, Random.Output(generator.S()))
      ensures g > 0.0 && OnPath(base, g, pow10)
    {
      var variation := Uniform();
      variation := 10.0 * variation;
      var p := pow10(variation / 10.0);
      g := base * p;
      assert OnPathAt(base, g, pow10, Random.Output(generator.S()));
    }
  }
}
