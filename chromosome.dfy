/** `Layer5_GA_Chromosome`: four rank-fusion weights, one per recommendation
    layer, kept non-negative and summing to 1 by `Normalize` after every
    construction, mutation and crossover; plus a mutable fitness. */
module GAChromosome {
  import opened Wrappers
  import opened Numerics
  import RandomSource

  /** One weight per input layer (Layers 1-4). */
  const Genes: nat := 4

  /** Below this total the clamped weights count as all zero. */
  const ZeroSum: real := 0.0000000001

  function Sum(w: seq<real>): real
    requires |w| == Genes
  {
    w[0] + w[1] + w[2] + w[3]
  }

  /** The class invariant on the weights: non-negative and summing to 1. */
  predicate IsSimplex(w: seq<real>) {
    |w| == Genes && (forall i :: 0 <= i < Genes ==> w[i] >= 0.0) && Sum(w) == 1.0
  }

  /** Step 1 of `Normalize`: negative weights become 0. */
  function Clamped(w: seq<real>): (r: seq<real>)
    ensures |r| == |w|
    ensures forall i :: 0 <= i < |w| ==> r[i] == (if w[i] < 0.0 then 0.0 else w[i])
  {
    seq(|w|, i requires 0 <= i < |w| => if w[i] < 0.0 then 0.0 else w[i])
  }

  /** The weights `Normalize` leaves: the clamped weights divided by their
      sum, or 0.25 each when that sum is (effectively) zero. */
  function Normalized(w: seq<real>): (r: seq<real>)
    requires |w| == Genes
    ensures IsSimplex(r)
  {
    var c := Clamped(w);
    var s := Sum(c);
    if s < ZeroSum then [0.25, 0.25, 0.25, 0.25]
    else
      DivSum4(c[0], c[1], c[2], c[3], s);
      assert (c[0] + c[1] + c[2] + c[3]) / s == s / s == 1.0;
      DivNonNegative(c[0], s);
      DivNonNegative(c[1], s);
      DivNonNegative(c[2], s);
      DivNonNegative(c[3], s);
      [c[0] / s, c[1] / s, c[2] / s, c[3] / s]
  }

  /** Normalisation is idempotent, and its fixed points are exactly the
      weight vectors that already satisfy the invariant. */
  lemma NormalizedFixedPoint(w: seq<real>)
    requires |w| == Genes
    ensures Normalized(w) == w <==> IsSimplex(w)
  {
    if IsSimplex(w) {
      var c := Clamped(w);
      assert c == w;
      assert Sum(c) == 1.0;
      assert Normalized(w) == [w[0] / 1.0, w[1] / 1.0, w[2] / 1.0, w[3] / 1.0];
      assert Normalized(w) == w;
    }
  }

  lemma NormalizedIdempotent(w: seq<real>)
    requires |w| == Genes
    ensures Normalized(Normalized(w)) == Normalized(w)
  {
    NormalizedFixedPoint(Normalized(w));
  }

  /** Normalisation keeps the order of the weights: a weight that was at
      least as large as another stays at least as large. */
  lemma NormalizedKeepsOrder(w: seq<real>, i: nat, j: nat)
    requires |w| == Genes && i < Genes && j < Genes
    requires w[i] <= w[j]
    ensures Normalized(w)[i] <= Normalized(w)[j]
  {
    var c := Clamped(w);
    var s := Sum(c);
    if s >= ZeroSum {
      DivMonotone(c[i], c[j], s);
    }
  }

  /** When every weight is zero or negative the result is the uniform vector. */
  lemma NormalizedAllNonPositive(w: seq<real>)
    requires |w| == Genes
    requires forall i :: 0 <= i < Genes ==> w[i] <= 0.0
    ensures Normalized(w) == [0.25, 0.25, 0.25, 0.25]
  {
    assert Sum(Clamped(w)) == 0.0;
  }

  /** The raw crossover mix `a * x[i] + (1 - a) * y[i]`. */
  function Blend(a: real, x: seq<real>, y: seq<real>): (r: seq<real>)
    requires |x| == Genes && |y| == Genes
    ensures |r| == Genes
    ensures forall i :: 0 <= i < Genes ==> r[i] == Mix(a, x[i], y[i])
  {
    seq(Genes, i requires 0 <= i < Genes => Mix(a, x[i], y[i]))
  }

  /** `a * x + (1 - a) * y`. */
  function Mix(a: real, x: real, y: real): real {
    a * x + (1.0 - a) * y
  }

  /** Mixing two valid weight vectors with a factor in [0,1] gives a valid
      weight vector, so crossover's normalisation changes nothing. */
  lemma BlendIsSimplex(a: real, x: seq<real>, y: seq<real>)
    requires IsSimplex(x) && IsSimplex(y) && 0.0 <= a <= 1.0
    ensures IsSimplex(Blend(a, x, y))
  {
    var r := Blend(a, x, y);
    forall i | 0 <= i < Genes ensures r[i] >= 0.0 {
      MulNonNegative(a, x[i]);
      MulNonNegative(1.0 - a, y[i]);
    }
    calc {
      Sum(r);
      a * (x[0] + x[1] + x[2] + x[3]) + (1.0 - a) * (y[0] + y[1] + y[2] + y[3]);
      a * 1.0 + (1.0 - a) * 1.0;
    }
  }

  /** The two offspring of one crossover share out each gene of the parents:
      their raw weights add up to the parents' weights. */
  lemma BlendPairSum(a: real, x: seq<real>, y: seq<real>, i: nat)
    requires |x| == Genes && |y| == Genes && i < Genes
    ensures Blend(a, x, y)[i] + Blend(1.0 - a, x, y)[i] == x[i] + y[i]
  {
  }

  /** The weights after `Mutate` adds the scaled noise, before normalising. */
  function Perturbed(w: seq<real>, noise: seq<real>, strength: real): (r: seq<real>)
    requires |w| == Genes && |noise| == Genes
    ensures |r| == Genes
    ensures forall i :: 0 <= i < Genes ==> r[i] == w[i] + noise[i] * strength
  {
    seq(Genes, i requires 0 <= i < Genes => w[i] + noise[i] * strength)
  }

  /** `n` consecutive draws taken from position `from`. */
  function Draws(stream: nat -> real, from: nat, n: nat): (r: seq<real>)
    ensures |r| == n
    ensures forall k :: 0 <= k < n ==> r[k] == stream(from + k)
  {
    seq(n, k requires 0 <= k < n => stream(from + k))
  }

  /** The Gaussian noise `Mutate` draws for each gene: one Box-Muller value
      from two consecutive uniform draws. */
  function Noise(gaussian: (real, real) -> real, stream: nat -> real, from: nat): (r: seq<real>)
    ensures |r| == Genes
    ensures forall i :: 0 <= i < Genes ==> r[i] == gaussian(stream(from + 2 * i), stream(from + 2 * i + 1))
  {
    seq(Genes, i requires 0 <= i < Genes => gaussian(stream(from + 2 * i), stream(from + 2 * i + 1)))
  }

  /** The weights `Mutate` leaves: each gene moved by the noise drawn from
      position `from` scaled by `strength`, then normalised. */
  function MutatedWeights(w: seq<real>, gaussian: (real, real) -> real, stream: nat -> real, from: nat,
                          strength: real): (r: seq<real>)
    requires |w| == Genes
    ensures IsSimplex(r)
  {
    Normalized(Perturbed(w, Noise(gaussian, stream, from), strength))
  }

  /** A chromosome. The source keeps the weights in a private four-element
      array that every constructor allocates afresh and no other object sees;
      here that array is the sequence-valued field `weights`, which the
      methods update entry by entry. */
  class Chromosome {
    var weights: seq<real>
    var fitness: real

    ghost predicate Valid() reads this {
      IsSimplex(weights)
    }

    /** `new Layer5_GA_Chromosome(w1, w2, w3, w4)`. */
    constructor (w1: real, w2: real, w3: real, w4: real)
      ensures Valid() && weights == Normalized([w1, w2, w3, w4])
      ensures fitness == 0.0
    {
      weights := [w1, w2, w3, w4];
      fitness := 0.0;
      new;
      Normalize();
    }

    /** `new Layer5_GA_Chromosome(double[] weights)` for a 4-element array:
        the values are copied, then normalised. */
    constructor FromArray(source: array<real>)
      requires source.Length == Genes
      ensures Valid() && weights == Normalized(source[..])
      ensures fitness == 0.0
    {
      var w := [0.0, 0.0, 0.0, 0.0];
      for i := 0 to Genes
        invariant |w| == Genes
        invariant forall k :: 0 <= k < i ==> w[k] == source[k]
      {
        w := w[i := source[i]];
      }
      assert w == source[..];
      weights := w;
      fitness := 0.0;
      new;
      Normalize();
    }

    /** The array constructor's argument check: a null array or one whose
        length is not 4 raises `ArgumentException`. */
    static method Create(source: array?<real>) returns (r: Result<Chromosome, Exception>)
      ensures r.Err? <==> source == null || source.Length != Genes
      ensures r.Err? ==> r.error == ArgumentException("Weights array must contain exactly 4 elements")
      ensures r.Ok? ==> fresh(r.value) && r.value.Valid()
      ensures r.Ok? ==> r.value.weights == Normalized(source[..]) && r.value.fitness == 0.0
    {
      if source == null || source.Length != Genes {
        return Err(ArgumentException("Weights array must contain exactly 4 elements"));
      }
      var c := new Chromosome.FromArray(source);
      return Ok(c);
    }

    /** `new Layer5_GA_Chromosome(random)`: four uniform draws, normalised. */
    constructor FromRandom(random: RandomSource.Random)
      requires random.Valid()
      modifies random
      ensures Valid() && fitness == 0.0
      ensures random.position == old(random.position) + Genes
      ensures weights == Normalized(Draws(random.stream, old(random.position), Genes))
    {
      var w := [0.0, 0.0, 0.0, 0.0];
      ghost var start := random.position;
      for i := 0 to Genes
        invariant random.position == start + i && |w| == Genes
        invariant forall k :: 0 <= k < i ==> w[k] == random.stream(start + k)
      {
        var d := random.NextDouble();
        w := w[i := d];
      }
      assert w == Draws(random.stream, start, Genes);
      weights := w;
      fitness := 0.0;
      new;
      Normalize();
    }

    /** The copy constructor: weights and fitness are copied as they are,
        without normalising. */
    constructor Copy(other: Chromosome)
      ensures weights == other.weights && fitness == other.fitness
    {
      weights := other.weights;
      fitness := other.fitness;
    }

    /** Clamp negatives to 0, then divide by the sum (or reset to 0.25 each
        when the sum is below 1e-10). */
    method Normalize()
      requires |weights| == Genes
      modifies this`weights
      ensures weights == Normalized(old(weights))
    {
      ghost var w := weights;
      for i := 0 to Genes
        invariant |weights| == Genes
        invariant forall k :: 0 <= k < i ==> weights[k] == Clamped(w)[k]
        invariant forall k :: i <= k < Genes ==> weights[k] == w[k]
      {
        if weights[i] < 0.0 {
          weights := weights[i := 0.0];
        }
      }
      assert weights == Clamped(w);
      var sum := Sum(weights);
      if sum < ZeroSum {
        for i := 0 to Genes
          invariant |weights| == Genes
          invariant forall k :: 0 <= k < i ==> weights[k] == 0.25
        {
          weights := weights[i := 0.25];
        }
        assert weights == [0.25, 0.25, 0.25, 0.25];
      } else {
        ghost var c := weights;
        for i := 0 to Genes
          invariant |weights| == Genes
          invariant forall k :: 0 <= k < i ==> weights[k] == c[k] / sum
          invariant forall k :: i <= k < Genes ==> weights[k] == c[k]
        {
          weights := weights[i := weights[i] / sum];
        }
        assert weights == [c[0] / sum, c[1] / sum, c[2] / sum, c[3] / sum];
      }
    }

    /** Adds `noise * mutationStrength` to every weight, one Box-Muller value
        per gene from two draws, then normalises. The invariant holds again
        whatever the noise was. */
    method Mutate(random: RandomSource.Random, gaussian: (real, real) -> real, mutationStrength: real)
      requires |weights| == Genes && random.Valid()
      modifies this`weights, random
      ensures Valid()
      ensures random.position == old(random.position) + 2 * Genes
      ensures weights == MutatedWeights(old(weights), gaussian, random.stream, old(random.position), mutationStrength)
    {
      ghost var w := weights;
      ghost var start := random.position;
      for i := 0 to Genes
        invariant random.position == start + 2 * i && |weights| == Genes
        invariant forall k :: 0 <= k < i ==>
          weights[k] == w[k] + gaussian(random.stream(start + 2 * k), random.stream(start + 2 * k + 1)) * mutationStrength
        invariant forall k :: i <= k < Genes ==> weights[k] == w[k]
      {
        var u1 := random.NextDouble();
        var u2 := random.NextDouble();
        var gaussianNoise := gaussian(u1, u2);
        weights := weights[i := weights[i] + gaussianNoise * mutationStrength];
      }
      ghost var noise := Noise(gaussian, random.stream, start);
      ghost var target := Perturbed(w, noise, mutationStrength);
      forall k | 0 <= k < Genes ensures weights[k] == target[k] {
        assert noise[k] == gaussian(random.stream(start + 2 * k), random.stream(start + 2 * k + 1));
      }
      assert weights == target;
      Normalize();
    }

    /** `Clone()`: a new chromosome with copies of the weights and fitness. */
    method Clone() returns (c: Chromosome)
      ensures fresh(c)
      ensures c.weights == weights && c.fitness == fitness
    {
      c := new Chromosome.Copy(this);
    }

    /** `CompareTo`: 1 against null, otherwise `Fitness.CompareTo`, which
        orders by ascending fitness. */
    function CompareTo(other: Chromosome?): (r: int)
      reads this, other
      ensures -1 <= r <= 1
      ensures other == null ==> r == 1
      ensures other != null ==> (r < 0 <==> fitness < other.fitness)
      ensures other != null ==> (r == 0 <==> fitness == other.fitness)
    {
      if other == null then 1
      else if fitness < other.fitness then -1
      else if fitness > other.fitness then 1
      else 0
    }

    /** Blend crossover with one draw alpha: offspring 1 gets
        alpha * p1 + (1 - alpha) * p2, offspring 2 the mirrored mix; both are
        built with the array constructor, so they are normalised and have
        fitness 0. For valid parents the mixes are already valid. */
    static method Crossover(parent1: Chromosome, parent2: Chromosome, random: RandomSource.Random)
      returns (offspring1: Chromosome, offspring2: Chromosome)
      requires |parent1.weights| == Genes && |parent2.weights| == Genes
      requires random.Valid()
      modifies random
      ensures random.position == old(random.position) + 1
      ensures fresh(offspring1) && fresh(offspring2) && offspring1 != offspring2
      ensures offspring1.Valid() && offspring2.Valid()
      ensures offspring1.fitness == 0.0 && offspring2.fitness == 0.0
      ensures offspring1.weights ==
        Normalized(Blend(random.stream(old(random.position)), parent1.weights, parent2.weights))
      ensures offspring2.weights ==
        Normalized(Blend(1.0 - random.stream(old(random.position)), parent1.weights, parent2.weights))
      ensures parent1.Valid() && parent2.Valid() ==>
        offspring1.weights == Blend(random.stream(old(random.position)), parent1.weights, parent2.weights) &&
        offspring2.weights == Blend(1.0 - random.stream(old(random.position)), parent1.weights, parent2.weights)
    {
      var alpha := random.NextDouble();
      var offspring1Weights, offspring2Weights := BlendArrays(alpha, parent1.weights, parent2.weights);
      offspring1 := new Chromosome.FromArray(offspring1Weights);
      offspring2 := new Chromosome.FromArray(offspring2Weights);
      BlendOfValidIsNormal(alpha, parent1.weights, parent2.weights);
      BlendOfValidIsNormal(1.0 - alpha, parent1.weights, parent2.weights);
    }

    /** The crossover loop: both raw offspring weight arrays from one alpha. */
    static method BlendArrays(alpha: real, p1: seq<real>, p2: seq<real>)
      returns (o1: array<real>, o2: array<real>)
      requires |p1| == Genes && |p2| == Genes
      ensures fresh(o1) && fresh(o2) && o1.Length == Genes && o2.Length == Genes
      ensures o1[..] == Blend(alpha, p1, p2)
      ensures o2[..] == Blend(1.0 - alpha, p1, p2)
    {
      o1 := new real[4];
      o2 := new real[4];
      for i := 0 to Genes
        invariant forall k :: 0 <= k < i ==> o1[k] == Mix(alpha, p1[k], p2[k])
        invariant forall k :: 0 <= k < i ==> o2[k] == Mix(1.0 - alpha, p1[k], p2[k])
      {
        // offspring 2 takes (1 - alpha) of parent 1 and alpha of parent 2
        o1[i] := Mix(alpha, p1[i], p2[i]);
        o2[i] := Mix(1.0 - alpha, p1[i], p2[i]);
      }
      assert o1[..] == Blend(alpha, p1, p2);
      assert o2[..] == Blend(1.0 - alpha, p1, p2);
    }
  }

  /** For valid parents and a mixing factor in [0,1] the crossover mix is
      already normal, so the normalisation in the constructor keeps it. */
  lemma BlendOfValidIsNormal(a: real, x: seq<real>, y: seq<real>)
    requires |x| == Genes && |y| == Genes
    requires 0.0 <= a <= 1.0
    ensures IsSimplex(x) && IsSimplex(y) ==> Normalized(Blend(a, x, y)) == Blend(a, x, y)
  {
    if IsSimplex(x) && IsSimplex(y) {
      BlendIsSimplex(a, x, y);
      NormalizedFixedPoint(Blend(a, x, y));
    }
  }

  /** Comparing two chromosomes either way round gives opposite answers. */
  lemma CompareToAntisymmetric(a: Chromosome, b: Chromosome)
    ensures a.CompareTo(b) == -b.CompareTo(a)
  {
  }
}
