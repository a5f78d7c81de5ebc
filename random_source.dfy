/** `System.Random` as a stream of draws supplied by the caller. The seeded
    generator the engine uses is deterministic, so it is modelled by the
    sequence of values it would return: every draw is in [0,1). */
module RandomSource {

  ghost predicate IsUnitStream(stream: nat -> real) {
    forall k: nat :: 0.0 <= stream(k) < 1.0
  }

  class Random {
    /** The values `NextDouble()` returns, in order. */
    const stream: nat -> real
    /** How many draws have been taken so far. */
    var position: nat

    ghost predicate Valid() {
      IsUnitStream(stream)
    }

    constructor (stream: nat -> real)
      requires IsUnitStream(stream)
      ensures Valid() && this.stream == stream && position == 0
    {
      this.stream := stream;
      position := 0;
    }

    /** `NextDouble()`: the next draw, in [0,1). */
    method NextDouble() returns (d: real)
      requires Valid()
      modifies this`position
      ensures position == old(position) + 1
      ensures d == stream(old(position)) && 0.0 <= d < 1.0
    {
      d := stream(position);
      position := position + 1;
    }

    /** `Next(n)`: the seeded generator scales one draw, `(int)(draw * n)`,
        which lies in [0,n) for n > 0 and is 0 for n = 0. */
    method Next(n: nat) returns (k: nat)
      requires Valid()
      modifies this`position
      ensures position == old(position) + 1
      ensures k == ScaledAt(stream, old(position), n)
    {
      var d := NextDouble();
      ScaledDrawBelow(d, n);
      k := Scale(d, n);
    }
  }

  /** `(int)(d * n)`: one draw scaled to an index below `n`. */
  function Scale(d: real, n: nat): int {
    (d * n as real).Floor
  }

  /** The index `Next(n)` returns when it takes draw number `k`. */
  function ScaledAt(stream: nat -> real, k: nat, n: nat): (r: nat)
    requires IsUnitStream(stream)
    ensures n > 0 ==> r < n
    ensures n == 0 ==> r == 0
  {
    ScaledDrawBelow(stream(k), n);
    Scale(stream(k), n)
  }

  lemma ScaledDrawBelow(d: real, n: nat)
    requires 0.0 <= d < 1.0
    ensures 0 <= Scale(d, n)
    ensures n > 0 ==> Scale(d, n) < n
    ensures n == 0 ==> Scale(d, n) == 0
  {
    if n > 0 {
      assert d * n as real < n as real;
    }
  }
}
