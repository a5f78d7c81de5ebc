/** `Layer5_Poppys_GA_Engine`: a genetic algorithm that searches for the four
    rank-fusion weights whose weighted rank best agrees with the Layer 1-4
    ranks, then ranks each object type by that weighted rank. */
module GAEngine {
  import opened Wrappers
  import opened Numerics
  import opened Text
  import opened Sorting
  import opened GAChromosome
  import opened GAObjects
  import RandomSource

  const PopulationSize: nat := 150
  const MaxGenerations: nat := 100
  const ElitePercentage: real := 0.15
  const CrossoverRate: real := 0.75
  const MutationRate: real := 0.20
  const MutationStrength: real := 0.08
  const TournamentSize: nat := 5

  /** `(int)(populationSize * elitePercentage)`: 22.5 truncated. */
  function EliteCount(): (r: int)
    ensures r == 22
  {
    Truncate(PopulationSize as real * ElitePercentage)
  }

  // ---------------------------------------------------------------- fitness

  /** The weighted rank `W1*rank1 + W2*rank2 + W3*rank3 + W4*rank4`. */
  function WeightedRank(w: seq<real>, o: GARecord): real
    requires |w| == Genes
  {
    w[0] * o.layer1Rank as real + w[1] * o.layer2Rank as real +
    w[2] * o.layer3Rank as real + w[3] * o.layer4Rank as real
  }

  /** The sum of squared differences between the weighted rank and each
      layer's rank. */
  function Disagreement(w: seq<real>, o: GARecord): real
    requires |w| == Genes
  {
    var f := WeightedRank(w, o);
    Square(f - o.layer1Rank as real) + Square(f - o.layer2Rank as real) +
    Square(f - o.layer3Rank as real) + Square(f - o.layer4Rank as real)
  }

  function TotalDisagreement(w: seq<real>, rows: seq<GARecord>): (t: real)
    requires |w| == Genes
    ensures t >= 0.0
  {
    if rows == [] then 0.0
    else TotalDisagreement(w, rows[..|rows| - 1]) + Disagreement(w, rows[|rows| - 1])
  }

  lemma TotalDisagreementStep(w: seq<real>, rows: seq<GARecord>, i: nat)
    requires |w| == Genes && i < |rows|
    ensures TotalDisagreement(w, rows[..i + 1]) == TotalDisagreement(w, rows[..i]) + Disagreement(w, rows[i])
  {
    assert rows[..i + 1][..i] == rows[..i];
  }

  /** What `EvaluateFitness` returns: 0 for no objects, otherwise
      `1 / (1 + mean disagreement)`. */
  function Fitness(w: seq<real>, rows: seq<GARecord>): real
    requires |w| == Genes
  {
    if rows == [] then 0.0
    else 1.0 / (1.0 + TotalDisagreement(w, rows) / |rows| as real)
  }

  /** Fitness is 0 for no objects and lies in (0, 1] otherwise. */
  lemma FitnessRange(w: seq<real>, rows: seq<GARecord>)
    requires |w| == Genes
    ensures rows == [] ==> Fitness(w, rows) == 0.0
    ensures rows != [] ==> 0.0 < Fitness(w, rows) <= 1.0
  {
    if rows != [] {
      DivNonNegative(TotalDisagreement(w, rows), |rows| as real);
      ReciprocalBounds(1.0 + TotalDisagreement(w, rows) / |rows| as real);
    }
  }

  lemma ReciprocalBounds(x: real)
    requires x >= 1.0
    ensures 0.0 < 1.0 / x <= 1.0
    ensures 1.0 / x == 1.0 <==> x == 1.0
  {
    var y := 1.0 / x;
    assert y * x == 1.0;
    if y <= 0.0 {
      MulMonotone(x, y, 0.0);
    }
    if y > 1.0 {
      MulMonotone(x, 1.0, y);
    }
  }

  /** All four layers put the object at the same rank. */
  predicate Unanimous(o: GARecord) {
    o.layer1Rank == o.layer2Rank == o.layer3Rank == o.layer4Rank
  }

  /** For a valid weight vector, an object contributes no disagreement
      exactly when its four ranks agree. */
  lemma DisagreementZeroIffUnanimous(w: seq<real>, o: GARecord)
    requires IsSimplex(w)
    ensures Disagreement(w, o) == 0.0 <==> Unanimous(o)
  {
    var f := WeightedRank(w, o);
    if Unanimous(o) {
      var r := o.layer1Rank as real;
      calc {
        f;
        w[0] * r + w[1] * r + w[2] * r + w[3] * r;
        (w[0] + w[1] + w[2] + w[3]) * r;
        { assert Sum(w) == 1.0; }
        r;
      }
    }
  }

  lemma {:induction false} TotalZeroIffEachZero(w: seq<real>, rows: seq<GARecord>)
    requires |w| == Genes
    ensures TotalDisagreement(w, rows) == 0.0 <==>
      forall i :: 0 <= i < |rows| ==> Disagreement(w, rows[i]) == 0.0
  {
    if rows != [] {
      var prefix := rows[..|rows| - 1];
      TotalZeroIffEachZero(w, prefix);
      var d := Disagreement(w, rows[|rows| - 1]);
      assert d >= 0.0;
      assert forall i :: 0 <= i < |prefix| ==> prefix[i] == rows[i];
    }
  }

  /** Perfect consensus: with a valid weight vector and at least one object,
      fitness is exactly 1 if and only if every object has the same rank in
      all four layers. */
  lemma FitnessOneIffConsensus(w: seq<real>, rows: seq<GARecord>)
    requires IsSimplex(w) && rows != []
    ensures Fitness(w, rows) == 1.0 <==> forall i :: 0 <= i < |rows| ==> Unanimous(rows[i])
  {
    var t := TotalDisagreement(w, rows);
    var n := |rows| as real;
    var avg := t / n;
    DivNonNegative(t, n);
    DivZeroIff(t, n);
    ReciprocalBounds(1.0 + avg);
    TotalZeroIffEachZero(w, rows);
    forall i | 0 <= i < |rows| ensures Disagreement(w, rows[i]) == 0.0 <==> Unanimous(rows[i]) {
      DisagreementZeroIffUnanimous(w, rows[i]);
    }
  }

  /** `EvaluateFitness`: accumulates the disagreement of every object. */
  method EvaluateFitness(chromosome: Chromosome, objects: seq<GAObject>) returns (fitness: real)
    requires |chromosome.weights| == Genes
    ensures fitness == Fitness(chromosome.weights, Records(objects))
  {
    if |objects| == 0 {
      return 0.0;
    }
    var w := chromosome.weights;
    ghost var rows := Records(objects);
    var totalDisagreement := 0.0;
    for i := 0 to |objects|
      invariant totalDisagreement == TotalDisagreement(w, rows[..i])
    {
      // the weighted rank and its squared differences to the four layer ranks
      var disagreement := Disagreement(w, objects[i].record);
      TotalDisagreementStep(w, rows, i);
      totalDisagreement := totalDisagreement + disagreement;
    }
    assert rows[..|objects|] == rows;
    var avgDisagreement := totalDisagreement / |objects| as real;
    fitness := 1.0 / (1.0 + avgDisagreement);
  }

  // -------------------------------------------------------------- selection

  /** The population indices `count` successive `Next(n)` calls return. */
  function Picks(stream: nat -> real, from: nat, n: nat, count: nat): (r: seq<int>)
    requires RandomSource.IsUnitStream(stream)
    ensures |r| == count
    ensures forall k :: 0 <= k < count ==> r[k] == RandomSource.ScaledAt(stream, from + k, n)
  {
    seq(count, k requires 0 <= k < count => RandomSource.ScaledAt(stream, from + k, n))
  }

  function Fitnesses(population: seq<Chromosome>): (r: seq<real>)
    reads population
    ensures |r| == |population|
    ensures forall i :: 0 <= i < |population| ==> r[i] == population[i].fitness
  {
    seq(|population|, i requires 0 <= i < |population| reads population => population[i].fitness)
  }

  /** The outcome of a tournament over the five draws from `from`: one of
      the picked chromosomes, as fit as every pick and strictly fitter than
      every earlier pick. */
  ghost predicate TournamentWinner(population: seq<Chromosome>, stream: nat -> real, from: nat, best: Chromosome)
    requires |population| > 0 && RandomSource.IsUnitStream(stream)
    reads population
  {
    var picks := Picks(stream, from, |population|, TournamentSize);
    exists j :: 0 <= j < TournamentSize && best == population[picks[j]] &&
      (forall k :: 0 <= k < TournamentSize ==> population[picks[k]].fitness <= best.fitness) &&
      (forall k :: 0 <= k < j ==> population[picks[k]].fitness < best.fitness)
  }

  /** `TournamentSelection` with the default tournament size 5: the winner
      is the first of the five sampled candidates whose fitness is not
      exceeded by any other, since a later candidate replaces the current best
      only when it is strictly fitter. */
  method TournamentSelection(population: seq<Chromosome>, random: RandomSource.Random)
    returns (best: Chromosome)
    requires |population| > 0 && random.Valid()
    modifies random
    ensures random.position == old(random.position) + TournamentSize
    ensures best in population
    ensures TournamentWinner(population, random.stream, old(random.position), best)
  {
    ghost var start := random.position;
    ghost var picks := Picks(random.stream, start, |population|, TournamentSize);
    var chosen: Chromosome? := null;
    ghost var j := 0;
    for i := 0 to TournamentSize
      invariant random.position == start + i
      invariant i == 0 <==> chosen == null
      invariant i > 0 ==>
        j < i && chosen == population[picks[j]] &&
        (forall k :: 0 <= k < i ==> population[picks[k]].fitness <= chosen.fitness) &&
        (forall k :: 0 <= k < j ==> population[picks[k]].fitness < chosen.fitness)
    {
      var index := random.Next(|population|);
      var candidate := population[index];
      assert candidate == population[picks[i]];
      if chosen == null || candidate.fitness > chosen.fitness {
        chosen := candidate;
        j := i;
      }
    }
    best := chosen;
  }

  // ------------------------------------------------------------- generations

  /** `InitializePopulation`: 150 fresh chromosomes from random draws. */
  method InitializePopulation(random: RandomSource.Random) returns (population: seq<Chromosome>)
    requires random.Valid()
    modifies random
    ensures random.position == old(random.position) + 600  // 150 chromosomes of 4 draws
    ensures |population| == PopulationSize && Unaliased(population)
    ensures forall c :: c in population ==> fresh(c) && c.Valid() && c.fitness == 0.0
    ensures forall i :: 0 <= i < PopulationSize ==>
      population[i].weights == Normalized(Draws(random.stream, old(random.position) + 4 * i, Genes))
  {
    population := [];
    for i := 0 to PopulationSize
      invariant random.position == old(random.position) + 4 * i
      invariant |population| == i && Unaliased(population)
      invariant forall c :: c in population ==> fresh(c) && c.Valid() && c.fitness == 0.0
      invariant forall k :: 0 <= k < i ==>
        population[k].weights == Normalized(Draws(random.stream, old(random.position) + 4 * k, Genes))
    {
      var c := new Chromosome.FromRandom(random);
      population := population + [c];
    }
  }

  /** No chromosome appears twice. */
  predicate Unaliased(population: seq<Chromosome>) {
    forall i, j :: 0 <= i < j < |population| ==> population[i] != population[j]
  }

  /** The chromosome satisfies the weight invariant and holds its true
      fitness for `rows`. */
  ghost predicate Evaluated(c: Chromosome, rows: seq<GARecord>)
    reads c
  {
    c.Valid() && c.fitness == Fitness(c.weights, rows)
  }

  /** The weights of the two offspring before mutation, with the crossover
      draw at `at`: below the rate, the parents blended by the next draw and
      by its complement; otherwise the parents' own weights. */
  function Crossed(stream: nat -> real, at: nat, w1: seq<real>, w2: seq<real>): (seq<real>, seq<real>)
    requires |w1| == Genes && |w2| == Genes
  {
    if stream(at) < CrossoverRate then
      (Blend(stream(at + 1), w1, w2), Blend(1.0 - stream(at + 1), w1, w2))
    else (w1, w2)
  }

  /** How many draws the crossover step takes. */
  function CrossoverDraws(stream: nat -> real, at: nat): nat {
    if stream(at) < CrossoverRate then 2 else 1
  }

  /** The weights after the mutation step, with the mutation draw at `at`:
      below the rate, perturbed by the noise of the next draws and
      normalised; otherwise unchanged. */
  function Mutated(gaussian: (real, real) -> real, stream: nat -> real, at: nat, w: seq<real>): (r: seq<real>)
    requires |w| == Genes
  {
    if stream(at) < MutationRate then
      MutatedWeights(w, gaussian, stream, at + 1, MutationStrength)
    else w
  }

  /** The mutation step keeps the weights a valid weight vector. */
  lemma MutatedSimplex(gaussian: (real, real) -> real, stream: nat -> real, at: nat, w: seq<real>)
    requires IsSimplex(w)
    ensures IsSimplex(Mutated(gaussian, stream, at, w))
  {
  }

  /** How many draws the mutation step takes. */
  function MutationDraws(stream: nat -> real, at: nat): nat {
    if stream(at) < MutationRate then 1 + 2 * Genes else 1
  }

  /** The crossover step of the fill loop: with probability 0.75 the two
      parents are blended by one further draw, otherwise both are cloned. */
  method Offspring(parent1: Chromosome, parent2: Chromosome, random: RandomSource.Random)
    returns (offspring1: Chromosome, offspring2: Chromosome)
    requires parent1.Valid() && parent2.Valid() && random.Valid()
    modifies random
    ensures fresh(offspring1) && fresh(offspring2)
    ensures offspring1 != offspring2
    ensures offspring1.Valid() && offspring2.Valid()
    ensures random.position == old(random.position) + CrossoverDraws(random.stream, old(random.position))
    ensures (offspring1.weights, offspring2.weights) ==
      Crossed(random.stream, old(random.position), parent1.weights, parent2.weights)
    ensures random.stream(old(random.position)) >= CrossoverRate ==>
      offspring1.fitness == parent1.fitness && offspring2.fitness == parent2.fitness
  {
    var draw := random.NextDouble();
    if draw < CrossoverRate {
      offspring1, offspring2 := Chromosome.Crossover(parent1, parent2, random);
    } else {
      offspring1 := parent1.Clone();
      offspring2 := parent2.Clone();
    }
  }

  /** The mutation step of the fill loop: with probability 0.2 the
      chromosome is mutated with strength 0.08. */
  method MaybeMutate(c: Chromosome, random: RandomSource.Random, gaussian: (real, real) -> real)
    requires c.Valid() && random.Valid()
    modifies c`weights, random
    ensures c.Valid()
    ensures random.position == old(random.position) + MutationDraws(random.stream, old(random.position))
    ensures c.weights == Mutated(gaussian, random.stream, old(random.position), old(c.weights))
  {
    ghost var start, w := random.position, c.weights;
    var draw := random.NextDouble();
    if draw < MutationRate {
      c.Mutate(random, gaussian, MutationStrength);
    }
    MutatedSimplex(gaussian, random.stream, start, w);
  }

  /** One pass of the fill loop: two tournament winners, their offspring,
      each mutated or not, both evaluated against `objects`. The parents are
      the winners of the tournaments on the first and the next five draws. */
  method Breed(currentPopulation: seq<Chromosome>, objects: seq<GAObject>,
               random: RandomSource.Random, gaussian: (real, real) -> real)
    returns (offspring1: Chromosome, offspring2: Chromosome, parent1: Chromosome, parent2: Chromosome)
    requires |currentPopulation| > 0 && random.Valid()
    requires forall c :: c in currentPopulation ==> c.Valid()
    modifies random
    ensures parent1 in currentPopulation && parent2 in currentPopulation
    ensures parent1.Valid() && parent2.Valid()
    ensures TournamentWinner(currentPopulation, random.stream, old(random.position), parent1)
    ensures TournamentWinner(currentPopulation, random.stream, old(random.position) + TournamentSize, parent2)
    ensures fresh(offspring1) && fresh(offspring2) && offspring1 != offspring2
    ensures Evaluated(offspring1, Records(objects)) && Evaluated(offspring2, Records(objects))
    ensures Bred(offspring1.weights, offspring2.weights, parent1.weights, parent2.weights,
                 gaussian, random.stream, old(random.position) + 2 * TournamentSize, random.position)
  {
    parent1, parent2 := Parents(currentPopulation, random);
    offspring1, offspring2 := Children(parent1, parent2, objects, random, gaussian);
  }

  /** The first half of one pass of the fill loop: two tournaments. */
  method Parents(currentPopulation: seq<Chromosome>, random: RandomSource.Random)
    returns (parent1: Chromosome, parent2: Chromosome)
    requires |currentPopulation| > 0 && random.Valid()
    requires forall c :: c in currentPopulation ==> c.Valid()
    modifies random
    ensures random.position == old(random.position) + 2 * TournamentSize
    ensures parent1 in currentPopulation && parent2 in currentPopulation
    ensures parent1.Valid() && parent2.Valid()
    ensures TournamentWinner(currentPopulation, random.stream, old(random.position), parent1)
    ensures TournamentWinner(currentPopulation, random.stream, old(random.position) + TournamentSize, parent2)
  {
    parent1 := TournamentSelection(currentPopulation, random);
    parent2 := TournamentSelection(currentPopulation, random);
  }

  /** The offspring's weights `w1` and `w2`, for the crossover draw at `at`:
      the parents' weights `p1` and `p2` crossed, then each child mutated or
      not by the draws after that; `position` is just past the last of them. */
  predicate Bred(w1: seq<real>, w2: seq<real>, p1: seq<real>, p2: seq<real>,
                 gaussian: (real, real) -> real, stream: nat -> real, at: nat, position: nat)
    requires |p1| == Genes && |p2| == Genes
  {
    var children := Crossed(stream, at, p1, p2);
    MutatedPair(w1, w2, children.0, children.1, gaussian, stream, at + CrossoverDraws(stream, at), position)
  }

  /** The weights `w1` and `w2` of two children `c1` and `c2` mutated or not
      in turn, the first by the draws from `at` on, the second by those after
      them; `position` is just past the last of them. */
  predicate MutatedPair(w1: seq<real>, w2: seq<real>, c1: seq<real>, c2: seq<real>,
                        gaussian: (real, real) -> real, stream: nat -> real, at: nat, position: nat)
    requires |c1| == Genes && |c2| == Genes
  {
    var at2 := at + MutationDraws(stream, at);
    w1 == Mutated(gaussian, stream, at, c1) &&
    w2 == Mutated(gaussian, stream, at2, c2) &&
    position == at2 + MutationDraws(stream, at2)
  }

  /** The second half of one pass of the fill loop: crossover of the two
      parents, then mutation and evaluation of each offspring. */
  method Children(parent1: Chromosome, parent2: Chromosome, objects: seq<GAObject>,
                  random: RandomSource.Random, gaussian: (real, real) -> real)
    returns (offspring1: Chromosome, offspring2: Chromosome)
    requires parent1.Valid() && parent2.Valid() && random.Valid()
    modifies random
    ensures fresh(offspring1) && fresh(offspring2) && offspring1 != offspring2
    ensures Evaluated(offspring1, Records(objects)) && Evaluated(offspring2, Records(objects))
    ensures Bred(offspring1.weights, offspring2.weights, parent1.weights, parent2.weights,
                 gaussian, random.stream, old(random.position), random.position)
  {
    offspring1, offspring2 := Offspring(parent1, parent2, random);
    MutateBoth(offspring1, offspring2, objects, random, gaussian);
  }

  /** The mutation and evaluation of the two offspring, first then second. */
  method MutateBoth(offspring1: Chromosome, offspring2: Chromosome, objects: seq<GAObject>,
                    random: RandomSource.Random, gaussian: (real, real) -> real)
    requires offspring1 != offspring2 && offspring1.Valid() && offspring2.Valid() && random.Valid()
    modifies offspring1`weights, offspring1`fitness, offspring2`weights, offspring2`fitness, random
    ensures Evaluated(offspring1, Records(objects)) && Evaluated(offspring2, Records(objects))
    ensures MutatedPair(offspring1.weights, offspring2.weights, old(offspring1.weights), old(offspring2.weights),
                        gaussian, random.stream, old(random.position), random.position)
  {
    ghost var w2 := offspring2.weights;
    MutateAndEvaluate(offspring1, objects, random, gaussian);
    ghost var m1 := offspring1.weights;
    assert offspring2.weights == w2;
    MutateAndEvaluate(offspring2, objects, random, gaussian);
    assert offspring1.weights == m1;
  }

  /** The tail of one pass of the fill loop for one offspring: mutate it or
      not, then store its fitness against `objects`. */
  method MutateAndEvaluate(c: Chromosome, objects: seq<GAObject>, random: RandomSource.Random,
                           gaussian: (real, real) -> real)
    requires c.Valid() && random.Valid()
    modifies c`weights, c`fitness, random
    ensures Evaluated(c, Records(objects))
    ensures random.position == old(random.position) + MutationDraws(random.stream, old(random.position))
    ensures c.weights == Mutated(gaussian, random.stream, old(random.position), old(c.weights))
  {
    MaybeMutate(c, random, gaussian);
    var fitness := EvaluateFitness(c, objects);
    c.fitness := fitness;
  }

  /** The elitism loop: clones of the first `count` chromosomes. */
  method CloneElites(currentPopulation: seq<Chromosome>, count: nat) returns (elites: seq<Chromosome>)
    requires count <= |currentPopulation|
    requires forall c :: c in currentPopulation ==> c.Valid()
    ensures |elites| == count && Unaliased(elites)
    ensures forall k :: 0 <= k < count ==>
      fresh(elites[k]) && elites[k].Valid() &&
      elites[k].weights == currentPopulation[k].weights &&
      elites[k].fitness == currentPopulation[k].fitness
  {
    elites := [];
    for i := 0 to count
      invariant |elites| == i && Unaliased(elites)
      invariant forall k :: 0 <= k < i ==>
        fresh(elites[k]) && elites[k].Valid() &&
        elites[k].weights == currentPopulation[k].weights &&
        elites[k].fitness == currentPopulation[k].fitness
    {
      assert currentPopulation[i] in currentPopulation;
      var c := currentPopulation[i].Clone();
      elites := elites + [c];
    }
  }

  /** `CreateNextGeneration`: exactly 150 fresh chromosomes; the first 22 are
      clones of the first 22 of the current (sorted) population, the rest
      are offspring holding their true fitness. */
  method CreateNextGeneration(currentPopulation: seq<Chromosome>, objects: seq<GAObject>,
                              random: RandomSource.Random, gaussian: (real, real) -> real)
    returns (nextGeneration: seq<Chromosome>)
    requires |currentPopulation| >= EliteCount() && random.Valid()
    requires forall c :: c in currentPopulation ==> c.Valid()
    modifies random
    ensures |nextGeneration| == PopulationSize && Unaliased(nextGeneration)
    ensures forall i :: 0 <= i < PopulationSize ==>
      fresh(nextGeneration[i]) && nextGeneration[i].Valid()
    ensures forall i :: 0 <= i < EliteCount() ==>
      nextGeneration[i].weights == currentPopulation[i].weights &&
      nextGeneration[i].fitness == currentPopulation[i].fitness
    ensures forall i :: EliteCount() <= i < PopulationSize ==>
      Evaluated(nextGeneration[i], Records(objects))
  {
    var eliteCount := EliteCount();
    nextGeneration := CloneElites(currentPopulation, eliteCount);
    ghost var rows := Records(objects);
    while |nextGeneration| < PopulationSize
      invariant eliteCount <= |nextGeneration| <= PopulationSize && Unaliased(nextGeneration)
      invariant forall k :: 0 <= k < |nextGeneration| ==>
        fresh(nextGeneration[k]) && nextGeneration[k].Valid()
      invariant forall k :: 0 <= k < eliteCount ==>
        nextGeneration[k].weights == currentPopulation[k].weights &&
        nextGeneration[k].fitness == currentPopulation[k].fitness
      invariant forall k :: eliteCount <= k < |nextGeneration| ==> Evaluated(nextGeneration[k], rows)
      decreases PopulationSize - |nextGeneration|
    {
      nextGeneration := AddOffspring(nextGeneration, currentPopulation, objects, random, gaussian);
    }
  }

  /** The body of the fill loop: one or, when there is room, both offspring
      of one breeding pass are appended. */
  method AddOffspring(nextGeneration: seq<Chromosome>, currentPopulation: seq<Chromosome>, objects: seq<GAObject>,
                      random: RandomSource.Random, gaussian: (real, real) -> real)
    returns (grown: seq<Chromosome>)
    requires |nextGeneration| < PopulationSize && Unaliased(nextGeneration)
    requires |currentPopulation| > 0 && random.Valid()
    requires forall c :: c in currentPopulation ==> c.Valid()
    modifies random
    ensures |nextGeneration| < |grown| <= PopulationSize && Unaliased(grown)
    ensures grown[..|nextGeneration|] == nextGeneration
    ensures forall k :: |nextGeneration| <= k < |grown| ==>
      fresh(grown[k]) && Evaluated(grown[k], Records(objects))
  {
    var offspring1, offspring2, parent1, parent2 := Breed(currentPopulation, objects, random, gaussian);
    grown := nextGeneration + [offspring1];
    if |grown| < PopulationSize {
      grown := grown + [offspring2];
    }
  }

  /** Every chromosome of the population holds its true fitness. */
  ghost predicate AllEvaluated(population: seq<Chromosome>, rows: seq<GARecord>)
    reads population
  {
    forall k :: 0 <= k < |population| ==> Evaluated(population[k], rows)
  }

  /** `RunGA`: evaluates a random population, then for 100 generations sorts
      it by descending fitness, keeps a clone of the front chromosome when it
      beats the best so far, and breeds the next generation. The result holds
      its true fitness and is at least as fit as every chromosome of the
      initial population (`initial`, drawn four values at a time from the
      random stream); `history`, the front fitness of each generation, never
      exceeds it and contains it. */
  method RunGA(objects: seq<GAObject>, random: RandomSource.Random, gaussian: (real, real) -> real)
    returns (bestEver: Chromosome, ghost initial: seq<Chromosome>, ghost history: seq<real>)
    requires random.Valid()
    modifies random
    ensures fresh(bestEver)
    ensures Evaluated(bestEver, Records(objects))
    ensures |initial| == PopulationSize && AllEvaluated(initial, Records(objects))
    ensures forall k :: 0 <= k < PopulationSize ==> initial[k].fitness <= bestEver.fitness
    ensures BeatsInitial(random.stream, old(random.position), Records(objects), bestEver.fitness)
    ensures |history| == MaxGenerations && bestEver.fitness in history
    ensures forall g :: 0 <= g < MaxGenerations ==> history[g] <= bestEver.fitness
  {
    ghost var rows, start := Records(objects), random.position;
    var population;
    population, bestEver := InitialGeneration(objects, random);
    initial := population;
    history := [];
    label Seeded:
    for generation := 0 to MaxGenerations
      invariant |population| == PopulationSize && AllEvaluated(population, rows)
      invariant fresh(bestEver) && Evaluated(bestEver, rows)
      invariant unchanged@Seeded(initial)
      invariant forall k :: 0 <= k < PopulationSize ==> initial[k].fitness <= bestEver.fitness
      invariant BeatsInitial(random.stream, start, rows, bestEver.fitness)
      invariant |history| == generation
      invariant forall g :: 0 <= g < generation ==> history[g] <= bestEver.fitness
      invariant generation == 0 ==> exists k :: 0 <= k < PopulationSize && population[k].fitness == bestEver.fitness
      invariant generation > 0 ==> bestEver.fitness in history
    {
      population, bestEver, history := Step(population, bestEver, objects, random, gaussian, history);
    }
  }

  /** The weights of chromosome `k` of the initial population when the
      population is drawn from position `start`: four draws each, normalised. */
  function InitialWeights(stream: nat -> real, start: nat, k: nat): (r: seq<real>)
    ensures |r| == Genes
  {
    Normalized(Draws(stream, start + 4 * k, Genes))
  }

  /** An evaluated initial population no fitter than `fitness` is beaten by it. */
  lemma InitialBeaten(initial: seq<Chromosome>, rows: seq<GARecord>, stream: nat -> real, start: nat, fitness: real)
    requires |initial| == PopulationSize && AllEvaluated(initial, rows)
    requires forall k :: 0 <= k < PopulationSize ==> initial[k].weights == InitialWeights(stream, start, k)
    requires forall k :: 0 <= k < PopulationSize ==> initial[k].fitness <= fitness
    ensures BeatsInitial(stream, start, rows, fitness)
  {
    forall k | 0 <= k < PopulationSize ensures Fitness(InitialWeights(stream, start, k), rows) <= fitness {
      assert Evaluated(initial[k], rows);
    }
  }

  /** `fitness` is at least the fitness, for `rows`, of every chromosome of
      the initial population drawn from position `start`. */
  ghost predicate BeatsInitial(stream: nat -> real, start: nat, rows: seq<GARecord>, fitness: real) {
    forall k :: 0 <= k < PopulationSize ==> Fitness(InitialWeights(stream, start, k), rows) <= fitness
  }

  /** One iteration of the generation loop of `RunGA`, with the front
      fitness appended to `history`: the best-so-far never falls, and it
      bounds the whole history. */
  method Step(population: seq<Chromosome>, bestEver: Chromosome, objects: seq<GAObject>,
              random: RandomSource.Random, gaussian: (real, real) -> real, ghost history: seq<real>)
    returns (nextGeneration: seq<Chromosome>, best: Chromosome, ghost newHistory: seq<real>)
    requires |population| == PopulationSize && AllEvaluated(population, Records(objects))
    requires Evaluated(bestEver, Records(objects)) && random.Valid()
    requires forall g :: 0 <= g < |history| ==> history[g] <= bestEver.fitness
    modifies random
    ensures |nextGeneration| == PopulationSize && AllEvaluated(nextGeneration, Records(objects))
    ensures Evaluated(best, Records(objects))
    ensures fresh(best) || best == bestEver
    ensures bestEver.fitness <= best.fitness
    ensures |newHistory| == |history| + 1
    ensures forall g :: 0 <= g < |newHistory| ==> newHistory[g] <= best.fitness
    ensures ((exists k :: 0 <= k < PopulationSize && population[k].fitness == bestEver.fitness) ||
             bestEver.fitness in history) ==> best.fitness in newHistory
  {
    ghost var front;
    nextGeneration, best, front := Generation(population, bestEver, objects, random, gaussian);
    newHistory := history + [front];
    assert newHistory[|history|] == front;
  }

  /** The start of `RunGA`: the random population, evaluated, and a clone of
      its fittest chromosome, the first of equals. */
  method InitialGeneration(objects: seq<GAObject>, random: RandomSource.Random)
    returns (population: seq<Chromosome>, bestEver: Chromosome)
    requires random.Valid()
    modifies random
    ensures |population| == PopulationSize && AllEvaluated(population, Records(objects))
    ensures forall k :: 0 <= k < PopulationSize ==> fresh(population[k])
    ensures BeatsInitial(random.stream, old(random.position), Records(objects), bestEver.fitness)
    ensures forall k :: 0 <= k < PopulationSize ==> population[k].fitness <= bestEver.fitness
    ensures exists k :: 0 <= k < PopulationSize && population[k].fitness == bestEver.fitness
    ensures fresh(bestEver) && Evaluated(bestEver, Records(objects))
  {
    population := InitializePopulation(random);
    assert forall k :: 0 <= k < PopulationSize ==> population[k] in population;
    EvaluatePopulation(population, objects);
    bestEver := FittestClone(population, Records(objects));
    InitialBeaten(population, Records(objects), random.stream, old(random.position), bestEver.fitness);
  }

  /** `population.OrderByDescending(c => c.Fitness).First().Clone()`. */
  method FittestClone(population: seq<Chromosome>, ghost rows: seq<GARecord>) returns (best: Chromosome)
    requires |population| > 0 && AllEvaluated(population, rows)
    ensures fresh(best) && Evaluated(best, rows)
    ensures var front := population[OrderDescending(Fitnesses(population))[0]];
      best.weights == front.weights && best.fitness == front.fitness
    ensures forall k :: 0 <= k < |population| ==> population[k].fitness <= best.fitness
  {
    var fitnesses := Fitnesses(population);
    var order := OrderDescending(fitnesses);
    OrderDescendingFirstIsMax(fitnesses);
    best := population[order[0]].Clone();
  }

  /** The first loop of `RunGA`: every chromosome gets its fitness. */
  method EvaluatePopulation(population: seq<Chromosome>, objects: seq<GAObject>)
    requires Unaliased(population)
    requires forall k :: 0 <= k < |population| ==> population[k].Valid()
    modifies population
    ensures AllEvaluated(population, Records(objects))
    ensures forall k :: 0 <= k < |population| ==>
      population[k].weights == old(population[k].weights)
  {
    for i := 0 to |population|
      invariant forall k :: 0 <= k < |population| ==>
        population[k].Valid() && population[k].weights == old(population[k].weights)
      invariant forall k :: 0 <= k < i ==> Evaluated(population[k], Records(objects))
    {
      var fitness := EvaluateFitness(population[i], objects);
      population[i].fitness := fitness;
    }
  }

  /** One pass of the evolution loop of `RunGA`. `front` is the fitness of
      the front chromosome after sorting, the largest in the population; the
      best-so-far is replaced by a clone of it only when it is strictly
      fitter. */
  method Generation(population: seq<Chromosome>, bestEver: Chromosome, objects: seq<GAObject>,
                    random: RandomSource.Random, gaussian: (real, real) -> real)
    returns (nextGeneration: seq<Chromosome>, best: Chromosome, ghost front: real)
    requires |population| == PopulationSize && AllEvaluated(population, Records(objects))
    requires Evaluated(bestEver, Records(objects)) && random.Valid()
    modifies random
    ensures |nextGeneration| == PopulationSize && AllEvaluated(nextGeneration, Records(objects))
    ensures Evaluated(best, Records(objects))
    ensures forall k :: 0 <= k < PopulationSize ==> population[k].fitness <= front
    ensures exists k :: 0 <= k < PopulationSize && population[k].fitness == front
    ensures if front > bestEver.fitness then fresh(best) && best.fitness == front
            else best == bestEver
  {
    ghost var rows := Records(objects);
    var sorted;
    sorted, best, front := SortAndKeepBest(population, bestEver, rows);
    nextGeneration := CreateNextGeneration(sorted, objects, random, gaussian);
    ElitesEvaluated(sorted, nextGeneration, rows);
  }

  /** The first half of a generation: the population sorted by descending
      fitness, and the best-so-far, replaced by a clone of the front
      chromosome when that is strictly fitter. */
  method SortAndKeepBest(population: seq<Chromosome>, bestEver: Chromosome, ghost rows: seq<GARecord>)
    returns (sorted: seq<Chromosome>, best: Chromosome, ghost front: real)
    requires |population| == PopulationSize && AllEvaluated(population, rows)
    requires Evaluated(bestEver, rows)
    ensures |sorted| == PopulationSize
    ensures forall k :: 0 <= k < PopulationSize ==> Evaluated(sorted[k], rows)
    ensures Evaluated(best, rows)
    ensures forall k :: 0 <= k < PopulationSize ==> population[k].fitness <= front
    ensures exists k :: 0 <= k < PopulationSize && population[k].fitness == front
    ensures if front > bestEver.fitness then fresh(best) && best.fitness == front
            else best == bestEver
  {
    ghost var top;
    sorted, top := SortedByFitness(population, rows);
    front := sorted[0].fitness;
    best := KeepBest(sorted[0], bestEver, rows);
  }

  /** The best-so-far, or a clone of `front` when that is strictly fitter. */
  method KeepBest(front: Chromosome, bestEver: Chromosome, ghost rows: seq<GARecord>) returns (best: Chromosome)
    requires Evaluated(front, rows) && Evaluated(bestEver, rows)
    ensures Evaluated(best, rows)
    ensures if front.fitness > bestEver.fitness then fresh(best) && best.fitness == front.fitness
            else best == bestEver
  {
    best := bestEver;
    if front.fitness > bestEver.fitness {
      best := front.Clone();
    }
  }

  /** Clones of evaluated chromosomes are evaluated too. */
  lemma ElitesEvaluated(sorted: seq<Chromosome>, next: seq<Chromosome>, rows: seq<GARecord>)
    requires |sorted| == PopulationSize && |next| == PopulationSize
    requires forall k :: 0 <= k < PopulationSize ==> Evaluated(sorted[k], rows)
    requires forall i :: 0 <= i < EliteCount() ==>
      next[i].weights == sorted[i].weights && next[i].fitness == sorted[i].fitness
    requires forall i :: EliteCount() <= i < PopulationSize ==> Evaluated(next[i], rows)
    ensures AllEvaluated(next, rows)
  {
    forall k | 0 <= k < PopulationSize ensures Evaluated(next[k], rows) {
      if k < EliteCount() {
        assert Evaluated(sorted[k], rows);
      }
    }
  }

  /** `population.OrderByDescending(c => c.Fitness).ToList()`: a stable
      descending sort, so the front chromosome is the fittest. */
  method SortedByFitness(population: seq<Chromosome>, ghost rows: seq<GARecord>) returns (sorted: seq<Chromosome>, ghost top: nat)
    requires |population| == PopulationSize && AllEvaluated(population, rows)
    ensures sorted == Pick(population, OrderDescending(Fitnesses(population)))
    ensures multiset(sorted) == multiset(population)
    ensures |sorted| == PopulationSize && NonIncreasing(Fitnesses(sorted))
    ensures forall k :: 0 <= k < PopulationSize ==>
      Evaluated(sorted[k], rows) && population[k].fitness <= sorted[0].fitness
    ensures top < PopulationSize && population[top] == sorted[0]
  {
    var fits := Fitnesses(population);
    var order := OrderDescending(fits);
    sorted := Pick(population, order);
    DescendingFitnesses(population);
    OrderDescendingSpec(fits);
    PickPermutes(population, order);
    forall k | 0 <= k < PopulationSize ensures Evaluated(sorted[k], rows) {
      assert sorted[k] == population[order[k]];
    }
    top := order[0];
  }

  /** Sorting by descending fitness puts the fitnesses in non-increasing
      order with a maximum in front. */
  lemma DescendingFitnesses(population: seq<Chromosome>)
    requires |population| > 0
    ensures var sorted := Pick(population, OrderDescending(Fitnesses(population)));
      NonIncreasing(Fitnesses(sorted)) &&
      forall k :: 0 <= k < |population| ==> population[k].fitness <= sorted[0].fitness
  {
    var fits := Fitnesses(population);
    var order := OrderDescending(fits);
    var sorted := Pick(population, order);
    OrderDescendingSpec(fits);
    OrderDescendingFirstIsMax(fits);
    assert Fitnesses(sorted) == Pick(fits, order);
  }

  // ------------------------------------------------------------ final ranks

  /** The weighted rank of every object. */
  function Scores(w: seq<real>, rows: seq<GARecord>): (r: seq<real>)
    requires |w| == Genes
    ensures |r| == |rows| && forall k :: 0 <= k < |rows| ==> r[k] == WeightedRank(w, rows[k])
  {
    seq(|rows|, k requires 0 <= k < |rows| => WeightedRank(w, rows[k]))
  }

  function FinalScores(objects: seq<GAObject>): (r: seq<real>)
    reads objects
    ensures |r| == |objects| && forall k :: 0 <= k < |objects| ==> r[k] == objects[k].layer5FinalScore
  {
    seq(|objects|, k requires 0 <= k < |objects| reads objects => objects[k].layer5FinalScore)
  }

  /** The first loop of `ApplyWeightsAndRank`: every object's final score
      becomes its weighted rank. */
  method AssignFinalScores(objects: seq<GAObject>, w: seq<real>)
    requires |w| == Genes
    modifies objects
    ensures forall o :: o in objects ==> o.layer5FinalScore == WeightedRank(w, o.record)
    ensures forall o :: o in objects ==> o.layer5FinalRank == old(o.layer5FinalRank)
  {
    for i := 0 to |objects|
      invariant forall k :: 0 <= k < i ==> objects[k].layer5FinalScore == WeightedRank(w, objects[k].record)
      invariant forall o :: o in objects ==> o.layer5FinalRank == old(o.layer5FinalRank)
    {
      var finalScore := WeightedRank(w, objects[i].record);
      objects[i].layer5FinalScore := finalScore;
    }
  }

  /** The last loop of `ApplyWeightsAndRank`: each object's final rank
      becomes its position in the sorted list. */
  method AssignFinalRanks(rankedList: seq<GAObject>)
    modifies rankedList
    ensures forall o :: o in rankedList ==> o.layer5FinalScore == old(o.layer5FinalScore)
    ensures FinalScores(rankedList) == old(FinalScores(rankedList))
    ensures Distinct(rankedList) ==> forall i :: 0 <= i < |rankedList| ==> rankedList[i].layer5FinalRank == i
  {
    for i := 0 to |rankedList|
      invariant forall o :: o in rankedList ==> o.layer5FinalScore == old(o.layer5FinalScore)
      invariant Distinct(rankedList) ==> forall k :: 0 <= k < i ==> rankedList[k].layer5FinalRank == k
    {
      rankedList[i].layer5FinalRank := i;
    }
  }

  /** `ApplyWeightsAndRank`: writes every object's weighted rank as its final
      score, sorts the objects by ascending final score (stable) and numbers
      them from 0 in that order. */
  method ApplyWeightsAndRank(objects: seq<GAObject>, bestChromosome: Chromosome)
    returns (rankedList: seq<GAObject>)
    requires |bestChromosome.weights| == Genes
    modifies objects
    ensures rankedList == Pick(objects, OrderAscending(Scores(bestChromosome.weights, Records(objects))))
    ensures multiset(rankedList) == multiset(objects)
    ensures forall o :: o in objects ==> o.layer5FinalScore == WeightedRank(bestChromosome.weights, o.record)
    ensures NonDecreasing(FinalScores(rankedList))
    ensures Distinct(objects) ==>
      Distinct(rankedList) && forall i :: 0 <= i < |rankedList| ==> rankedList[i].layer5FinalRank == i
  {
    var w := bestChromosome.weights;
    AssignFinalScores(objects, w);
    rankedList := SortByFinalScore(objects, w);
    AssignFinalRanks(rankedList);
      }

  /** `objects.OrderBy(o => o.Layer5_FinalScore).ToList()` once every final
      score is the weighted rank: a stable ascending sort. */
  method SortByFinalScore(objects: seq<GAObject>, w: seq<real>) returns (rankedList: seq<GAObject>)
    requires |w| == Genes
    requires forall o :: o in objects ==> o.layer5FinalScore == WeightedRank(w, o.record)
    ensures rankedList == Pick(objects, OrderAscending(Scores(w, Records(objects))))
    ensures multiset(rankedList) == multiset(objects)
    ensures forall o :: o in objects ==> o in rankedList
    ensures NonDecreasing(FinalScores(rankedList))
    ensures Distinct(objects) ==> Distinct(rankedList)
  {
    var scores := Scores(w, Records(objects));
    var order := OrderAscending(scores);
    rankedList := Pick(objects, order);
    RankedBySpec(objects, w, scores, order, rankedList);
  }

  /** What the sort in `ApplyWeightsAndRank` establishes. */
  lemma RankedBySpec(objects: seq<GAObject>, w: seq<real>, scores: seq<real>, order: seq<nat>,
                     rankedList: seq<GAObject>)
    requires |w| == Genes && scores == Scores(w, Records(objects))
    requires order == OrderAscending(scores) && rankedList == Pick(objects, order)
    requires forall o :: o in objects ==> o.layer5FinalScore == WeightedRank(w, o.record)
    ensures multiset(rankedList) == multiset(objects)
    ensures forall o :: o in objects ==> o in rankedList
    ensures NonDecreasing(FinalScores(rankedList))
    ensures Distinct(objects) ==> Distinct(rankedList)
  {
    OrderAscendingSpec(scores);
    PickPermutes(objects, order);
    assert forall o :: o in objects ==> o in rankedList by {
      assert forall o :: o in objects ==> o in multiset(objects);
    }
    assert FinalScores(rankedList) == Pick(scores, order);
    if Distinct(objects) {
      forall p, q | 0 <= p < q < |rankedList| ensures rankedList[p] != rankedList[q] {
        assert order[p] != order[q];
      }
    }
  }

  // ------------------------------------------------------ the entry point

  /** `Layer5_GA_Result`: per object type the ranked list and the weights
      found, both absent (`null` in the source) for a type with no objects. */
  datatype GAResult = GAResult(
    stars: Option<seq<GAObject>>, planets: Option<seq<GAObject>>, moons: Option<seq<GAObject>>,
    bestStarWeights: Chromosome?, bestPlanetWeights: Chromosome?, bestMoonWeights: Chromosome?)

  /** `inputObjects.Where(o => o.Object_Type.Equals(type, OrdinalIgnoreCase))`. */
  function OfType(objects: seq<GAObject>, objectType: string): (r: seq<GAObject>)
    ensures forall k :: 0 <= k < |r| ==> r[k] in objects && EqualsIgnoreCase(r[k].record.objectType, objectType)
    ensures forall i :: 0 <= i < |objects| && EqualsIgnoreCase(objects[i].record.objectType, objectType) ==>
      objects[i] in r
    ensures Distinct(objects) ==> Distinct(r)
  {
    var flags := seq(|objects|, i requires 0 <= i < |objects| =>
      EqualsIgnoreCase(objects[i].record.objectType, objectType));
    var ids := Where(flags);
    var r := Pick(objects, ids);
    assert forall i :: 0 <= i < |objects| && flags[i] ==> objects[i] in r by {
      forall i | 0 <= i < |objects| && flags[i] ensures objects[i] in r {
        assert i in ids;
        var k :| 0 <= k < |ids| && ids[k] == i;
        assert r[k] == objects[i];
      }
    }
    r
  }

  /** No object type matches two of "Star", "Planet" and "Moon". */
  lemma TypesDisjoint(t: string)
    ensures !(EqualsIgnoreCase(t, "Star") && EqualsIgnoreCase(t, "Planet"))
    ensures !(EqualsIgnoreCase(t, "Star") && EqualsIgnoreCase(t, "Moon"))
    ensures !(EqualsIgnoreCase(t, "Planet") && EqualsIgnoreCase(t, "Moon"))
  {
    assert ToLower("Star") == "star" && ToLower("Planet") == "planet" && ToLower("Moon") == "moon";
  }

  /** The star, planet and moon groups share no object. */
  lemma TypesPartition(objects: seq<GAObject>)
    ensures var stars, planets, moons := OfType(objects, "Star"), OfType(objects, "Planet"), OfType(objects, "Moon");
      (forall k :: 0 <= k < |stars| ==> stars[k] !in planets && stars[k] !in moons) &&
      (forall k :: 0 <= k < |planets| ==> planets[k] !in moons)
  {
    var stars, planets, moons := OfType(objects, "Star"), OfType(objects, "Planet"), OfType(objects, "Moon");
    forall k | 0 <= k < |stars| ensures stars[k] !in planets && stars[k] !in moons {
      TypesDisjoint(stars[k].record.objectType);
    }
    forall k | 0 <= k < |planets| ensures planets[k] !in moons {
      TypesDisjoint(planets[k].record.objectType);
    }
  }

  /** The objects are in ascending order of their weighted rank under `w`. */
  predicate RankOrdered(ranked: seq<GAObject>, w: seq<real>)
    requires |w| == Genes
  {
    forall i, j :: 0 <= i < j < |ranked| ==> WeightedRank(w, ranked[i].record) <= WeightedRank(w, ranked[j].record)
  }

  /** What the ranking writes into the objects: every final score is the
      weighted rank under `w`, and, when no object is listed twice, every
      final rank is the object's position in `ranked`. */
  ghost predicate Scored(group: seq<GAObject>, ranked: seq<GAObject>, w: seq<real>)
    requires |w| == Genes
    reads group
  {
    (forall o :: o in group ==> o.layer5FinalScore == WeightedRank(w, o.record)) &&
    (Distinct(group) ==> forall o :: o in group ==> 0 <= o.layer5FinalRank < |ranked| && ranked[o.layer5FinalRank] == o)
  }

  /** `OrderBy` of the group on the weighted rank under `w`: a stable
      ascending sort. */
  ghost function RankedByWeights(group: seq<GAObject>, w: seq<real>): seq<GAObject>
    requires |w| == Genes
  {
    Pick(group, OrderAscending(Scores(w, Records(group))))
  }

  /** What the GA and the ranking produce for a non-empty group, stated on
      values: the weights `w` hold the invariant and `fitness` is their true
      fitness for the group, at least that of every chromosome of an initial
      population drawn from `stream`; `ranked` is the group in the stable
      ascending order of the weighted rank under `w`. */
  ghost predicate Outcome(group: seq<GAObject>, ranked: seq<GAObject>, w: seq<real>, fitness: real,
                          stream: nat -> real)
  {
    IsSimplex(w) && fitness == Fitness(w, Records(group)) &&
    (exists start: nat :: BeatsInitial(stream, start, Records(group), fitness)) &&
    ranked == RankedByWeights(group, w) &&
    multiset(ranked) == multiset(group) && RankOrdered(ranked, w)
  }

  /** What the GA and the ranking find for one object type: nothing for no
      objects; otherwise the chromosome the GA returns and the ranked
      objects as `Outcome` states. */
  ghost predicate Found(group: seq<GAObject>, ranked: Option<seq<GAObject>>, best: Chromosome?,
                        stream: nat -> real)
    reads best
  {
    (ranked.None? <==> |group| == 0) && (best == null <==> |group| == 0) &&
    (ranked.Some? && best != null ==>
      Outcome(group, ranked.value, best.weights, best.fitness, stream))
  }

  /** The scores and ranks the optimisation of one object type writes into
      its objects. */
  ghost predicate Written(group: seq<GAObject>, ranked: Option<seq<GAObject>>, best: Chromosome?)
    reads best, group
  {
    ranked.Some? && best != null && |best.weights| == Genes ==> Scored(group, ranked.value, best.weights)
  }

  /** What the optimisation of one object type leaves: what `Found` states,
      with the scores and ranks written into the objects. */
  ghost predicate Optimized(group: seq<GAObject>, ranked: Option<seq<GAObject>>, best: Chromosome?,
                            stream: nat -> real)
    reads best, group
  {
    Found(group, ranked, best, stream) && Written(group, ranked, best)
  }

  /** A list holding the objects of `group`, whose final scores are their
      weighted ranks, and that is sorted by final score is sorted by weighted
      rank. */
  lemma RankOrderedByScores(group: seq<GAObject>, ranked: seq<GAObject>, w: seq<real>)
    requires |w| == Genes && multiset(ranked) == multiset(group)
    requires forall o :: o in group ==> o.layer5FinalScore == WeightedRank(w, o.record)
    requires NonDecreasing(FinalScores(ranked))
    ensures RankOrdered(ranked, w)
  {
    forall i, j | 0 <= i < j < |ranked|
      ensures WeightedRank(w, ranked[i].record) <= WeightedRank(w, ranked[j].record)
    {
      assert ranked[i] in multiset(group) && ranked[j] in multiset(group);
      assert FinalScores(ranked)[i] <= FinalScores(ranked)[j];
    }
  }

  /** When positions are written as ranks, every object of `group` finds
      itself at the position its rank names. */
  lemma RanksArePositions(group: seq<GAObject>, ranked: seq<GAObject>)
    requires multiset(ranked) == multiset(group)
    requires Distinct(group) ==> forall i :: 0 <= i < |ranked| ==> ranked[i].layer5FinalRank == i
    ensures Distinct(group) ==> forall o :: o in group ==> 0 <= o.layer5FinalRank < |ranked| && ranked[o.layer5FinalRank] == o
  {
    if Distinct(group) {
      forall o | o in group ensures 0 <= o.layer5FinalRank < |ranked| && ranked[o.layer5FinalRank] == o {
        assert o in multiset(ranked);
        var i :| 0 <= i < |ranked| && ranked[i] == o;
      }
    }
  }

  /** One `if (xs.Count > 0)` block of `OptimizeRankFusion`. */
  method OptimizeType(group: seq<GAObject>, random: RandomSource.Random, gaussian: (real, real) -> real)
    returns (ranked: Option<seq<GAObject>>, best: Chromosome?)
    requires random.Valid()
    modifies random, group
    ensures Found(group, ranked, best, random.stream) && Written(group, ranked, best)
    ensures best != null ==> fresh(best)
  {
    ranked, best := None, null;
    if |group| > 0 {
      ghost var initial, history;
      var bestEver;
      ghost var start := random.position;
      bestEver, initial, history := RunGA(group, random, gaussian);
      var rankedList := ApplyWeightsAndRank(group, bestEver);
      RankOrderedByScores(group, rankedList, bestEver.weights);
      RanksArePositions(group, rankedList);
      ranked, best := Some(rankedList), bestEver;
    }
  }

  /** The three `if (xs.Count > 0)` blocks of `OptimizeRankFusion`, one
      after the other, on groups that share no object. */
  method OptimizeGroups(stars: seq<GAObject>, planets: seq<GAObject>, moons: seq<GAObject>,
                        random: RandomSource.Random, gaussian: (real, real) -> real)
    returns (result: GAResult)
    requires random.Valid()
    requires forall k :: 0 <= k < |stars| ==> stars[k] !in planets && stars[k] !in moons
    requires forall k :: 0 <= k < |planets| ==> planets[k] !in moons
    modifies random, stars, planets, moons
    ensures Optimized(stars, result.stars, result.bestStarWeights, random.stream)
    ensures Optimized(planets, result.planets, result.bestPlanetWeights, random.stream)
    ensures Optimized(moons, result.moons, result.bestMoonWeights, random.stream)
  {
    var starList, starWeights := OptimizeType(stars, random, gaussian);
    var planetList, planetWeights := OptimizeKeeping(planets, random, gaussian, stars, starList, starWeights, [], None, null);
    var moonList, moonWeights := OptimizeKeeping(moons, random, gaussian, stars, starList, starWeights,
                                                 planets, planetList, planetWeights);
    result := GAResult(starList, planetList, moonList, starWeights, planetWeights, moonWeights);
  }

  /** One block of `OptimizeRankFusion` after others: the groups already
      optimised, which share no object with this one, keep their results. */
  method OptimizeKeeping(group: seq<GAObject>, random: RandomSource.Random, gaussian: (real, real) -> real,
                         ghost done1: seq<GAObject>, ghost ranked1: Option<seq<GAObject>>, ghost best1: Chromosome?,
                         ghost done2: seq<GAObject>, ghost ranked2: Option<seq<GAObject>>, ghost best2: Chromosome?)
    returns (ranked: Option<seq<GAObject>>, best: Chromosome?)
    requires random.Valid()
    requires forall k :: 0 <= k < |done1| ==> done1[k] !in group
    requires forall k :: 0 <= k < |done2| ==> done2[k] !in group
    requires Found(done1, ranked1, best1, random.stream) && Written(done1, ranked1, best1)
    requires Found(done2, ranked2, best2, random.stream) && Written(done2, ranked2, best2)
    modifies random, group
    ensures Found(group, ranked, best, random.stream) && Written(group, ranked, best)
    ensures Found(done1, ranked1, best1, random.stream) && Written(done1, ranked1, best1)
    ensures Found(done2, ranked2, best2, random.stream) && Written(done2, ranked2, best2)
  {
    ranked, best := OptimizeType(group, random, gaussian);
  }

  /** `OptimizeRankFusion`: rejects a null or empty list; otherwise splits it
      by object type, ignoring case, drops every other type, and optimises
      and ranks stars, planets and moons one after another. */
  method OptimizeRankFusion(inputObjects: Option<seq<GAObject>>, random: RandomSource.Random,
                            gaussian: (real, real) -> real)
    returns (r: Result<GAResult, Exception>)
    requires random.Valid()
    modifies random, GetOrElse(inputObjects, [])
    ensures r.Err? <==> inputObjects.None? || |inputObjects.value| == 0
    ensures r.Err? ==> r.error == ArgumentException("Input objects cannot be null or empty")
    ensures r.Ok? ==>
      var objects := inputObjects.value;
      Optimized(OfType(objects, "Star"), r.value.stars, r.value.bestStarWeights, random.stream) &&
      Optimized(OfType(objects, "Planet"), r.value.planets, r.value.bestPlanetWeights, random.stream) &&
      Optimized(OfType(objects, "Moon"), r.value.moons, r.value.bestMoonWeights, random.stream)
  {
    if inputObjects.None? || |inputObjects.value| == 0 {
      return Err(ArgumentException("Input objects cannot be null or empty"));
    }
    var objects := inputObjects.value;
    var stars := OfType(objects, "Star");
    var planets := OfType(objects, "Planet");
    var moons := OfType(objects, "Moon");
    TypesPartition(objects);
    var result := OptimizeGroups(stars, planets, moons, random, gaussian);
    return Ok(result);
  }
}
