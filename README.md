# POPPY Universe recommendation engine — a Dafny model

POPPY Universe recommends stars, planets and moons to observe. Its
recommendation engine runs in layers:

- **Layer 1** filters the catalogue by what is above the horizon,
  scores each visible object for the user, and sorts by score. There is a
  star engine in the stand-alone build and a "headroom" star engine in the
  cloud build, plus the stand-alone planet and moon engines. These rely on
  an ephemeris (orbital-element table, Julian dates, angle normalisation,
  a Kepler solver) and on a weather check that turns an hourly forecast
  into a visibility chance and a reason.
- **Layers 2-4** are boosters. Each one derives a ceiling score from the
  Layer 1 scores and percentages, raises each object by a capped amount,
  writes the new score, match percentage and description into the object,
  and keeps the best N per type. The boosters are:
  - the stand-alone trend booster, which drops unmatched objects;
  - the cloud trend booster, which gives a random "halo" boost to
    objects of a popular category;
  - the stand-alone matrix booster, with a linear boost;
  - the cloud MSI matrix booster, with a thresholded multiplier;
  - the stand-alone NN booster.
- **Layer 5** fuses the four rank lists. A genetic algorithm evolves
  four-weight chromosomes whose weights stay non-negative and sum to 1,
  and ranks each object type by the weighted rank that fits best. A
  handler turns the Layer 1-4 lists into rank records.
- The cloud `/run-engine` endpoint decides which layers run and which
  lists are returned. Its JSON converters read booleans and strings
  leniently.
- The web back end's controller maps engine output to table rows,
  reading the boost amount out of the description with `safeParseFloat`.

The model works over `real` in place of `double`. `Math.Round` is
written out as round-half-to-even. Objects whose score fields the source
updates in place are classes:
- the score card of a view;
- a chromosome;
- a GA object;
- the engines;
- the weather calculator;
- the random generator.

Every method is proved against a function on values that states what the
source computes, and the properties are lemmas about those functions.

Modules and files:

| file | module | models |
|---|---|---|
| `wrappers.dfy` | `Wrappers` | `Option`, `Result` and the .NET exception kinds the source throws |
| `numerics.dfy` | `Numerics` | banker's rounding, truncation, C# integer division, the stated bounds of `Pow`/`Log10`/`Sqrt` |
| `text.dfy` | `Text` | ASCII case mapping, decimal text of numbers |
| `random_source.dfy` | `RandomSource` | `System.Random` as a stream of draws in `[0, 1)` |
| `views.dfy` | `Views` | star, planet and moon objects and views, the mutable score card |
| `sorting.dfy`, `ranking.dfy` | `Sorting`, `Ranking` | LINQ `Where`, stable `OrderBy`/`OrderByDescending`, `Take`, combined top-N |
| `chromosome.dfy` | `GAChromosome` | `Layer5_GA_Chromosome` |
| `ga_objects.dfy`, `ga_engine.dfy`, `ga_handler.dfy` | `GAObjects`, `GAEngine`, `GAHandler` | Layer 5 |
| `booster_common.dfy` | `Boosting` | the ceiling, percentage and description shared by the boosters |
| `trend_booster.dfy`, `halo_booster.dfy` | `TrendBooster`, `HaloBooster` | Layer 2, stand-alone and cloud |
| `preference_matrix.dfy`, `matrix_booster.dfy`, `msi_booster.dfy` | `PreferenceMatrix`, `MatrixBooster`, `MsiMatrixBooster` | Layer 3, stand-alone and cloud |
| `nn_booster.dfy` | `NNBooster` | Layer 4 |
| `weather.dfy` | `Weather` | `WeatherChecker` |
| `layer1_common.dfy`, `star_engine.dfy`, `headroom_star_engine.dfy`, `planet_engine.dfy`, `moon_engine.dfy` | `Layer1`, `StarEngine`, `HeadroomStarEngine`, `PlanetEngine`, `MoonEngine` | Layer 1 |
| `ephemeris.dfy` | `Ephemeris` | `Planetary_Position_Service` |
| `cloud_endpoint.dfy` | `CloudEndpoint` | the cloud `Program.cs` |
| `engine_controller.dfy` | `EngineController` | `Engine_Controller.js` |

## Model

| member | source | states |
|---|---|---|
| Numerics.RoundHalfEven | POPPY_Universe/Recommendation_Engine/Stand_Alone_Engine/Poppy_Universe_Engine/Layer1_Star_Engine.cs:137 | `Math.Round` to an integer: within a half of the input, and an exact half goes to the even neighbour |
| Numerics.Round2Spec | POPPY_Universe/Recommendation_Engine/Stand_Alone_Engine/Poppy_Universe_Engine/Layer1_Star_Engine.cs:137-141 | `Math.Round(x, 2)` gives whole cents within half a cent of `x` |
| Numerics.Round1 | POPPY_Universe/Recommendation_Engine/Poppy_Universe_Engine/Layer3_Poppys_Matrix_Booster-MSI.cs:138 | `Math.Round(x, 1)` gives whole tenths within half a tenth of `x` |
| Numerics.Truncate | POPPY_Universe/Recommendation_Engine/Stand_Alone_Engine/Poppy_Universe_Engine/Planetary_Position_Service.cs:274 | the quotient truncated toward zero, as a double `%` uses it |
| Numerics.DivTrunc | POPPY_Universe/Recommendation_Engine/Stand_Alone_Engine/Poppy_Universe_Engine/Planetary_Position_Service.cs:378-379 | C#'s integer `/`: the remainder carries the sign of the dividend and is smaller than the divisor |
| Text.ToLower | POPPY_Universe/Recommendation_Engine/Stand_Alone_Engine/Poppy_Universe_Engine/Planetary_Position_Service.cs:34 | `ToLower`: same length, each character lower-cased |
| Text.ToUpper | POPPY_Universe/Recommendation_Engine/Stand_Alone_Engine/Poppy_Universe_Engine/Layer3_Poppys_Matrix_Booster.cs:43 | `ToUpper`: same length, each character upper-cased |
| Text.IntToStringRoundTrip | POPPY_Universe/Recommendation_Engine/Poppy_Universe_Engine/Program.cs:229 | `long.ToString()` parses back to the number |
| Text.IntToStringInjective | POPPY_Universe/Recommendation_Engine/Poppy_Universe_Engine/Program.cs:229 | two numbers have the same text exactly when they are equal |
| RandomSource.Random.constructor | POPPY_Universe/Recommendation_Engine/Stand_Alone_Engine/Poppy_Universe_Engine/Layer5_Poppys_GA_Engine.cs:50 | a generator starts at the first draw of its stream |
| RandomSource.Random.NextDouble | POPPY_Universe/Recommendation_Engine/Stand_Alone_Engine/Poppy_Universe_Engine/Layer1_Star_Engine.cs:126 | `NextDouble` takes the next draw, in `[0, 1)` |
| RandomSource.Random.Next | POPPY_Universe/Recommendation_Engine/Stand_Alone_Engine/Poppy_Universe_Engine/Layer5_Poppys_GA_Engine.cs:243 | `Next(n)` takes the next draw, scaled to an index below `n` |
| RandomSource.ScaledDrawBelow | POPPY_Universe/Recommendation_Engine/Stand_Alone_Engine/Poppy_Universe_Engine/Layer5_Poppys_GA_Engine.cs:243 | a draw in `[0, 1)` scaled by `n` is a valid index for `n > 0` |
| Sorting.OrderDescendingSpec | POPPY_Universe/Recommendation_Engine/Stand_Alone_Engine/Poppy_Universe_Engine/Layer1_Star_Engine.cs:146 | `OrderByDescending` on indices: every index exactly once, stably sorted, keys non-increasing |
| Sorting.OrderAscendingSpec | POPPY_Universe/Recommendation_Engine/Stand_Alone_Engine/Poppy_Universe_Engine/Layer5_Poppys_GA_Engine.cs:332 | `OrderBy` on indices: every index exactly once, stably sorted, keys non-decreasing |
| Sorting.OrderDescendingFirstIsMax | POPPY_Universe/Recommendation_Engine/Stand_Alone_Engine/Poppy_Universe_Engine/Layer1_Star_Engine.cs:146 | the first of a descending order holds the largest key |
| GAChromosome.Clamped | POPPY_Universe/Recommendation_Engine/Poppy_Universe_Engine/Layer5_GA_Chromosome.cs:117-122 | every negative weight becomes 0, every other weight is kept, and the length is unchanged |
| GAChromosome.Normalized | POPPY_Universe/Recommendation_Engine/Poppy_Universe_Engine/Layer5_GA_Chromosome.cs:115-140 | the weights `Normalize` leaves are non-negative and sum to 1, whatever the input |
| GAChromosome.NormalizedFixedPoint | POPPY_Universe/Recommendation_Engine/Poppy_Universe_Engine/Layer5_GA_Chromosome.cs:125-139 | normalising leaves a weight vector unchanged exactly when it is already non-negative and sums to 1 |
| GAChromosome.NormalizedIdempotent | POPPY_Universe/Recommendation_Engine/Poppy_Universe_Engine/Layer5_GA_Chromosome.cs:115-140 | normalising twice gives the same weights as normalising once |
| GAChromosome.NormalizedKeepsOrder | POPPY_Universe/Recommendation_Engine/Poppy_Universe_Engine/Layer5_GA_Chromosome.cs:117-138 | normalising keeps the order between any two weights |
| GAChromosome.NormalizedAllNonPositive | POPPY_Universe/Recommendation_Engine/Poppy_Universe_Engine/Layer5_GA_Chromosome.cs:128-133 | when no weight is positive the result is the uniform vector 0.25 each |
| GAChromosome.Blend | POPPY_Universe/Recommendation_Engine/Poppy_Universe_Engine/Layer5_GA_Chromosome.cs:217-223 | each raw offspring gene is alpha times the first parent's gene plus (1 - alpha) times the second's |
| GAChromosome.BlendIsSimplex | POPPY_Universe/Recommendation_Engine/Poppy_Universe_Engine/Layer5_GA_Chromosome.cs:217-223 | blending two valid weight vectors with alpha in [0,1] gives a valid weight vector |
| GAChromosome.BlendPairSum | POPPY_Universe/Recommendation_Engine/Poppy_Universe_Engine/Layer5_GA_Chromosome.cs:220-222 | for every gene, the two raw offspring sum to the two parents |
| GAChromosome.BlendOfValidIsNormal | POPPY_Universe/Recommendation_Engine/Poppy_Universe_Engine/Layer5_GA_Chromosome.cs:212-227 | for valid parents the raw offspring are already normalised, so the constructor's normalisation does not change them |
| GAChromosome.Perturbed | POPPY_Universe/Recommendation_Engine/Poppy_Universe_Engine/Layer5_GA_Chromosome.cs:150-160 | each weight is increased by its noise value times the mutation strength |
| GAChromosome.Noise | POPPY_Universe/Recommendation_Engine/Poppy_Universe_Engine/Layer5_GA_Chromosome.cs:152-156 | gene i's noise is the Box-Muller value of draws 2i and 2i+1 |
| GAChromosome.Chromosome.constructor | POPPY_Universe/Recommendation_Engine/Poppy_Universe_Engine/Layer5_GA_Chromosome.cs:57-62 | the weights are the normalised (w1, w2, w3, w4) and fitness is 0 |
| GAChromosome.Chromosome.FromArray | POPPY_Universe/Recommendation_Engine/Poppy_Universe_Engine/Layer5_GA_Chromosome.cs:68-77 | the weights are the normalised copy of the four array entries, the array itself is left untouched, and fitness is 0 |
| GAChromosome.Chromosome.Create | POPPY_Universe/Recommendation_Engine/Poppy_Universe_Engine/Layer5_GA_Chromosome.cs:68-77 | a null array or one whose length is not 4 gives `ArgumentException` with the source's message; otherwise a fresh valid chromosome with the normalised copy |
| GAChromosome.Chromosome.FromRandom | POPPY_Universe/Recommendation_Engine/Poppy_Universe_Engine/Layer5_GA_Chromosome.cs:83-93 | four draws are consumed and the weights are their normalisation, with fitness 0 |
| GAChromosome.Chromosome.Copy | POPPY_Universe/Recommendation_Engine/Poppy_Universe_Engine/Layer5_GA_Chromosome.cs:99-105 | weights and fitness are copied exactly, with no normalisation |
| GAChromosome.Chromosome.Normalize | POPPY_Universe/Recommendation_Engine/Poppy_Universe_Engine/Layer5_GA_Chromosome.cs:115-140 | the new weights are `Normalized` of the old ones |
| GAChromosome.Chromosome.Mutate | POPPY_Universe/Recommendation_Engine/Poppy_Universe_Engine/Layer5_GA_Chromosome.cs:147-164 | eight draws are consumed, and the new weights are the normalisation of the old weights plus the scaled noise, so the weight invariant holds again |
| GAChromosome.Chromosome.Clone | POPPY_Universe/Recommendation_Engine/Poppy_Universe_Engine/Layer5_GA_Chromosome.cs:170-173 | a fresh chromosome with equal weights and fitness |
| GAChromosome.Chromosome.CompareTo | POPPY_Universe/Recommendation_Engine/Poppy_Universe_Engine/Layer5_GA_Chromosome.cs:179-184 | 1 against null; otherwise negative, zero or positive exactly as this fitness is below, equal to or above the other's |
| GAChromosome.CompareToAntisymmetric | POPPY_Universe/Recommendation_Engine/Poppy_Universe_Engine/Layer5_GA_Chromosome.cs:179-184 | comparing two chromosomes either way round gives opposite results |
| GAChromosome.Chromosome.Crossover | POPPY_Universe/Recommendation_Engine/Poppy_Universe_Engine/Layer5_GA_Chromosome.cs:206-228 | one draw alpha; two fresh, distinct, valid offspring with fitness 0, whose weights are the normalised blends with alpha and 1 - alpha; for valid parents these are the raw blends |
| GAChromosome.Chromosome.BlendArrays | POPPY_Universe/Recommendation_Engine/Poppy_Universe_Engine/Layer5_GA_Chromosome.cs:214-223 | the two fresh offspring arrays hold the blends with alpha and 1 - alpha |
| GAEngine.EliteCount | POPPY_Universe/Recommendation_Engine/Stand_Alone_Engine/Poppy_Universe_Engine/Layer5_Poppys_GA_Engine.cs:180 | `(int)(150 * 0.15)` truncates to 22 |
| GAEngine.TotalDisagreement | POPPY_Universe/Recommendation_Engine/Stand_Alone_Engine/Poppy_Universe_Engine/Layer5_Poppys_GA_Engine.cs:269-293 | the accumulated disagreement is never negative |
| GAEngine.TotalDisagreementStep | POPPY_Universe/Recommendation_Engine/Stand_Alone_Engine/Poppy_Universe_Engine/Layer5_Poppys_GA_Engine.cs:271-293 | each loop pass adds exactly one object's squared disagreement to the total |
| GAEngine.FitnessRange | POPPY_Universe/Recommendation_Engine/Stand_Alone_Engine/Poppy_Universe_Engine/Layer5_Poppys_GA_Engine.cs:265-303 | fitness is 0 for no objects and lies in (0, 1] otherwise |
| GAEngine.DisagreementZeroIffUnanimous | POPPY_Universe/Recommendation_Engine/Stand_Alone_Engine/Poppy_Universe_Engine/Layer5_Poppys_GA_Engine.cs:280-290 | for a valid weight vector, an object adds no disagreement exactly when all four layers rank it the same |
| GAEngine.TotalZeroIffEachZero | POPPY_Universe/Recommendation_Engine/Stand_Alone_Engine/Poppy_Universe_Engine/Layer5_Poppys_GA_Engine.cs:271-293 | the total disagreement is 0 exactly when every object's disagreement is 0 |
| GAEngine.FitnessOneIffConsensus | POPPY_Universe/Recommendation_Engine/Stand_Alone_Engine/Poppy_Universe_Engine/Layer5_Poppys_GA_Engine.cs:267-300 | for a valid weight vector and at least one object, fitness is exactly 1 if and only if every object has the same rank in all four layers |
| GAEngine.EvaluateFitness | POPPY_Universe/Recommendation_Engine/Stand_Alone_Engine/Poppy_Universe_Engine/Layer5_Poppys_GA_Engine.cs:265-303 | the loop returns `Fitness`: 0 for no objects, otherwise 1 / (1 + mean squared disagreement) |
| GAEngine.Picks | POPPY_Universe/Recommendation_Engine/Stand_Alone_Engine/Poppy_Universe_Engine/Layer5_Poppys_GA_Engine.cs:240-243 | the k-th tournament candidate index is the scaled k-th draw |
| GAEngine.Fitnesses | POPPY_Universe/Recommendation_Engine/Stand_Alone_Engine/Poppy_Universe_Engine/Layer5_Poppys_GA_Engine.cs:132 | the fitness of each chromosome, in population order |
| GAEngine.TournamentSelection | POPPY_Universe/Recommendation_Engine/Stand_Alone_Engine/Poppy_Universe_Engine/Layer5_Poppys_GA_Engine.cs:236-252 | five draws are consumed; the winner is a population member, is at least as fit as every sampled candidate, and is the first sampled candidate with that fitness |
| GAEngine.InitializePopulation | POPPY_Universe/Recommendation_Engine/Stand_Alone_Engine/Poppy_Universe_Engine/Layer5_Poppys_GA_Engine.cs:157-168 | 150 fresh, distinct, valid chromosomes with fitness 0, chromosome i built from draws 4i..4i+3 |
| GAEngine.Offspring | POPPY_Universe/Recommendation_Engine/Stand_Alone_Engine/Poppy_Universe_Engine/Layer5_Poppys_GA_Engine.cs:196-205 | one draw, and with a draw below 0.75 one more: the offspring weights are the blend of the parents by that second draw and by one minus it, otherwise copies of the parents with their fitness; both are fresh, distinct and valid |
| GAEngine.MaybeMutate | POPPY_Universe/Recommendation_Engine/Stand_Alone_Engine/Poppy_Universe_Engine/Layer5_Poppys_GA_Engine.cs:208-215 | one draw; below 0.2 the weights become the normalised perturbation of the old weights by the Gaussian noise of the next draws at strength 0.08, otherwise they are unchanged; it stays valid |
| GAEngine.Breed | POPPY_Universe/Recommendation_Engine/Stand_Alone_Engine/Poppy_Universe_Engine/Layer5_Poppys_GA_Engine.cs:189-219 | one pass of the fill loop: the parents are the winners of two consecutive tournaments over the current population; the two offspring are fresh, distinct, hold their true fitness, and carry the parents' crossover-or-copy followed by each one's own mutate-or-keep, drawn in the source's order |
| GAEngine.Parents | POPPY_Universe/Recommendation_Engine/Stand_Alone_Engine/Poppy_Universe_Engine/Layer5_Poppys_GA_Engine.cs:189-191 | ten draws: the winners of two consecutive five-way tournaments, both members of the population |
| GAEngine.Children | POPPY_Universe/Recommendation_Engine/Stand_Alone_Engine/Poppy_Universe_Engine/Layer5_Poppys_GA_Engine.cs:193-219 | the crossover-or-copy of the parents, then the first offspring's mutation draw and noise, then the second's, each offspring evaluated |
| GAEngine.MutateBoth | POPPY_Universe/Recommendation_Engine/Stand_Alone_Engine/Poppy_Universe_Engine/Layer5_Poppys_GA_Engine.cs:208-219 | the first offspring is mutated or not from the current draw, the second from the draw after those, and both hold their true fitness |
| GAEngine.AddOffspring | POPPY_Universe/Recommendation_Engine/Stand_Alone_Engine/Poppy_Universe_Engine/Layer5_Poppys_GA_Engine.cs:187-226 | one pass adds one or two offspring to the next generation without passing 150, keeps what was there, and the new members are fresh and hold their true fitness |
| GAEngine.MutateAndEvaluate | POPPY_Universe/Recommendation_Engine/Stand_Alone_Engine/Poppy_Universe_Engine/Layer5_Poppys_GA_Engine.cs:208-219 | the offspring's weights are its mutate-or-keep outcome from the current draw, and it holds its true fitness |
| GAEngine.CloneElites | POPPY_Universe/Recommendation_Engine/Stand_Alone_Engine/Poppy_Universe_Engine/Layer5_Poppys_GA_Engine.cs:180-184 | fresh clones of the first `count` chromosomes, in order |
| GAEngine.CreateNextGeneration | POPPY_Universe/Recommendation_Engine/Stand_Alone_Engine/Poppy_Universe_Engine/Layer5_Poppys_GA_Engine.cs:173-230 | exactly 150 fresh, distinct, valid chromosomes; the first 22 copy the weights and fitness of the first 22 of the current population; the rest hold their true fitness |
| GAEngine.RunGA | POPPY_Universe/Recommendation_Engine/Stand_Alone_Engine/Poppy_Universe_Engine/Layer5_Poppys_GA_Engine.cs:114-152 | the result holds its true fitness, is at least as fit as every chromosome of the initial population drawn from the stream, and is the best front fitness seen over the 100 generations |
| GAEngine.Step | POPPY_Universe/Recommendation_Engine/Stand_Alone_Engine/Poppy_Universe_Engine/Layer5_Poppys_GA_Engine.cs:129-148 | one generation never lowers the best fitness, keeps the population at 150 evaluated chromosomes, and records the front fitness |
| GAEngine.InitialGeneration | POPPY_Universe/Recommendation_Engine/Stand_Alone_Engine/Poppy_Universe_Engine/Layer5_Poppys_GA_Engine.cs:117-126 | an evaluated population of 150 and a fresh clone of its fittest member, at least as fit as each of the 150 initial weight vectors drawn from the stream |
| GAEngine.InitialBeaten | POPPY_Universe/Recommendation_Engine/Stand_Alone_Engine/Poppy_Universe_Engine/Layer5_Poppys_GA_Engine.cs:117-126 | a fitness at least that of every evaluated initial chromosome bounds the fitness of every initial weight vector the stream gives |
| GAEngine.FittestClone | POPPY_Universe/Recommendation_Engine/Stand_Alone_Engine/Poppy_Universe_Engine/Layer5_Poppys_GA_Engine.cs:126 | a fresh clone of the front of the descending sort, at least as fit as every member |
| GAEngine.EvaluatePopulation | POPPY_Universe/Recommendation_Engine/Stand_Alone_Engine/Poppy_Universe_Engine/Layer5_Poppys_GA_Engine.cs:120-123 | every chromosome holds its true fitness afterwards, with its weights unchanged |
| GAEngine.Generation | POPPY_Universe/Recommendation_Engine/Stand_Alone_Engine/Poppy_Universe_Engine/Layer5_Poppys_GA_Engine.cs:132-147 | the best is replaced by a clone of the front only when the front is strictly fitter; the next generation has 150 evaluated chromosomes |
| GAEngine.SortAndKeepBest | POPPY_Universe/Recommendation_Engine/Stand_Alone_Engine/Poppy_Universe_Engine/Layer5_Poppys_GA_Engine.cs:132-138 | the population sorted by descending fitness, and the best kept or replaced by a clone of a strictly fitter front |
| GAEngine.KeepBest | POPPY_Universe/Recommendation_Engine/Stand_Alone_Engine/Poppy_Universe_Engine/Layer5_Poppys_GA_Engine.cs:134-138 | the best-so-far is replaced by a fresh clone of the front chromosome exactly when the front is strictly fitter, and stays evaluated |
| GAEngine.ElitesEvaluated | POPPY_Universe/Recommendation_Engine/Stand_Alone_Engine/Poppy_Universe_Engine/Layer5_Poppys_GA_Engine.cs:180-219 | clones of evaluated chromosomes hold their true fitness too |
| GAEngine.SortedByFitness | POPPY_Universe/Recommendation_Engine/Stand_Alone_Engine/Poppy_Universe_Engine/Layer5_Poppys_GA_Engine.cs:132 | a stable descending sort: a permutation of the population whose fitnesses do not increase |
| GAEngine.DescendingFitnesses | POPPY_Universe/Recommendation_Engine/Stand_Alone_Engine/Poppy_Universe_Engine/Layer5_Poppys_GA_Engine.cs:132 | the descending order puts the fitnesses in non-increasing order |
| GAEngine.Scores | POPPY_Universe/Recommendation_Engine/Stand_Alone_Engine/Poppy_Universe_Engine/Layer5_Poppys_GA_Engine.cs:322-325 | the weighted rank of each object |
| GAEngine.FinalScores | POPPY_Universe/Recommendation_Engine/Stand_Alone_Engine/Poppy_Universe_Engine/Layer5_Poppys_GA_Engine.cs:328 | the final score stored in each object |
| GAEngine.AssignFinalScores | POPPY_Universe/Recommendation_Engine/Stand_Alone_Engine/Poppy_Universe_Engine/Layer5_Poppys_GA_Engine.cs:320-329 | every object's final score becomes its weighted rank, and no final rank changes |
| GAEngine.AssignFinalRanks | POPPY_Universe/Recommendation_Engine/Stand_Alone_Engine/Poppy_Universe_Engine/Layer5_Poppys_GA_Engine.cs:335-338 | for distinct objects, the object at position i gets final rank i, and no score changes |
| GAEngine.ApplyWeightsAndRank | POPPY_Universe/Recommendation_Engine/Stand_Alone_Engine/Poppy_Universe_Engine/Layer5_Poppys_GA_Engine.cs:315-341 | the output is a permutation of the input, is the stable ascending sort by weighted rank (ties keep input order), every final score is the weighted rank, and each object's final rank is its position |
| GAEngine.SortByFinalScore | POPPY_Universe/Recommendation_Engine/Stand_Alone_Engine/Poppy_Universe_Engine/Layer5_Poppys_GA_Engine.cs:332 | the stable ascending order of final scores, a permutation of the objects |
| GAEngine.RankedBySpec | POPPY_Universe/Recommendation_Engine/Stand_Alone_Engine/Poppy_Universe_Engine/Layer5_Poppys_GA_Engine.cs:332 | the sorted list is a permutation with non-decreasing scores, and keeps distinct objects distinct |
| GAEngine.OfType | POPPY_Universe/Recommendation_Engine/Stand_Alone_Engine/Poppy_Universe_Engine/Layer5_Poppys_GA_Engine.cs:69-71 | exactly the objects whose type equals the name ignoring case, in input order |
| GAEngine.TypesDisjoint | POPPY_Universe/Recommendation_Engine/Stand_Alone_Engine/Poppy_Universe_Engine/Layer5_Poppys_GA_Engine.cs:69-71 | no type string equals two of "Star", "Planet" and "Moon" ignoring case |
| GAEngine.TypesPartition | POPPY_Universe/Recommendation_Engine/Stand_Alone_Engine/Poppy_Universe_Engine/Layer5_Poppys_GA_Engine.cs:69-71 | the star, planet and moon groups share no object |
| GAEngine.RankOrderedByScores | POPPY_Universe/Recommendation_Engine/Stand_Alone_Engine/Poppy_Universe_Engine/Layer5_Poppys_GA_Engine.cs:320-332 | a list sorted by final scores that equal the weighted ranks is in ascending weighted-rank order |
| GAEngine.RanksArePositions | POPPY_Universe/Recommendation_Engine/Stand_Alone_Engine/Poppy_Universe_Engine/Layer5_Poppys_GA_Engine.cs:335-338 | every object of a distinct group finds itself at the position its final rank names |
| GAEngine.OptimizeType | POPPY_Universe/Recommendation_Engine/Stand_Alone_Engine/Poppy_Universe_Engine/Layer5_Poppys_GA_Engine.cs:79-100 | nothing for an empty group; otherwise fresh valid weights whose fitness is at least that of every initial chromosome of some run of the GA over the group, and the group ranked by the stable ascending sort of its weighted ranks under those weights, each object scored and given its position |
| GAEngine.OptimizeGroups | POPPY_Universe/Recommendation_Engine/Stand_Alone_Engine/Poppy_Universe_Engine/Layer5_Poppys_GA_Engine.cs:79-100 | stars, then planets, then moons are each optimised as `OptimizeType` states, and the later groups leave the earlier results as they were |
| GAEngine.OptimizeKeeping | POPPY_Universe/Recommendation_Engine/Stand_Alone_Engine/Poppy_Universe_Engine/Layer5_Poppys_GA_Engine.cs:86-100 | one group optimised as `OptimizeType` states while two groups already optimised keep their ranking, weights and scores |
| GAEngine.OptimizeRankFusion | POPPY_Universe/Recommendation_Engine/Stand_Alone_Engine/Poppy_Universe_Engine/Layer5_Poppys_GA_Engine.cs:63-104 | `ArgumentException` exactly for a null or empty list; otherwise each of the three case-insensitive type groups is ranked by the stable sort under GA weights at least as fit as the initial population, other types are dropped, and an empty group leaves its list and weights null |
| GAObjects.GAObject.constructor | POPPY_Universe/Recommendation_Engine/Stand_Alone_Engine/Poppy_Universe_Engine/Layer5_Poppys_GA_Object.cs:19-129 | a fresh GA object holds the given record, with final score and final rank 0 |
| GAHandler.FindIndex | POPPY_Universe/Recommendation_Engine/Poppy_Universe_Engine/Layer5_Poppys_GA_Handler.cs:232 | -1 exactly when the id is absent, otherwise the first index holding it |
| GAHandler.GetRank | POPPY_Universe/Recommendation_Engine/Poppy_Universe_Engine/Layer5_Poppys_GA_Handler.cs:230-234 | the index of the first match, or 998 when there is none; 998 is also a real position in a list of more than 998 entries, so "absent" means 998 and no match at index 998 |
| GAHandler.StarRecord | POPPY_Universe/Recommendation_Engine/Poppy_Universe_Engine/Layer5_Poppys_GA_Handler.cs:113-135 | type "Star", the view's id, the given Layer 1 rank, the first positions (or 998) in the Layer 2-4 lists, and the visibility chance truncated to int |
| GAHandler.PlanetRecord | POPPY_Universe/Recommendation_Engine/Poppy_Universe_Engine/Layer5_Poppys_GA_Handler.cs:152-176 | type "Planet", the view's id, the Layer 1 rank, the Layer 2-4 positions, and a null diameter or mass read as 0 |
| GAHandler.MoonRecord | POPPY_Universe/Recommendation_Engine/Poppy_Universe_Engine/Layer5_Poppys_GA_Handler.cs:193-219 | type "Moon", the view's id, the Layer 1 rank, the Layer 2-4 positions, and a null diameter or mass read as 0 |
| GAHandler.StarRecords | POPPY_Universe/Recommendation_Engine/Poppy_Universe_Engine/Layer5_Poppys_GA_Handler.cs:110-138 | exactly one record per Layer 1 star, in Layer 1 order, with Layer 1 rank equal to the index |
| GAHandler.PlanetRecords | POPPY_Universe/Recommendation_Engine/Poppy_Universe_Engine/Layer5_Poppys_GA_Handler.cs:149-179 | exactly one record per Layer 1 planet, in order, with Layer 1 rank equal to the index |
| GAHandler.MoonRecords | POPPY_Universe/Recommendation_Engine/Poppy_Universe_Engine/Layer5_Poppys_GA_Handler.cs:190-222 | exactly one record per Layer 1 moon, in order, with Layer 1 rank equal to the index |
| GAHandler.ConvertStars | POPPY_Universe/Recommendation_Engine/Poppy_Universe_Engine/Layer5_Poppys_GA_Handler.cs:104-141 | the loop builds fresh, distinct GA objects holding `StarRecords` |
| GAHandler.ConvertPlanets | POPPY_Universe/Recommendation_Engine/Poppy_Universe_Engine/Layer5_Poppys_GA_Handler.cs:143-182 | the loop builds fresh, distinct GA objects holding `PlanetRecords` |
| GAHandler.ConvertMoons | POPPY_Universe/Recommendation_Engine/Poppy_Universe_Engine/Layer5_Poppys_GA_Handler.cs:184-225 | the loop builds fresh, distinct GA objects holding `MoonRecords` |
| GAHandler.ConvertToGAInput | POPPY_Universe/Recommendation_Engine/Poppy_Universe_Engine/Layer5_Poppys_GA_Handler.cs:83-102 | stars, then planets, then moons; its length is the sum of the three Layer 1 lengths, and objects only in Layers 2-4 never appear |
| GAHandler.RecordsConcat | POPPY_Universe/Recommendation_Engine/Poppy_Universe_Engine/Layer5_Poppys_GA_Handler.cs:93-99 | the records of a concatenation are the concatenated records |
| GAHandler.KnownTypes | POPPY_Universe/Recommendation_Engine/Poppy_Universe_Engine/Layer5_Poppys_GA_Handler.cs:117-197 | the three type names the handler writes match exactly one of the engine's three groups |
| GAHandler.GroupOfType | POPPY_Universe/Recommendation_Engine/Stand_Alone_Engine/Poppy_Universe_Engine/Layer5_Poppys_GA_Engine.cs:69-71 | the engine's group for a type is the contiguous slice of the handler's input with that type |
| GAHandler.StarsOfInput | POPPY_Universe/Recommendation_Engine/Stand_Alone_Engine/Poppy_Universe_Engine/Layer5_Poppys_GA_Engine.cs:69 | the engine's star group is the first block of the handler's input |
| GAHandler.PlanetsOfInput | POPPY_Universe/Recommendation_Engine/Stand_Alone_Engine/Poppy_Universe_Engine/Layer5_Poppys_GA_Engine.cs:70 | the engine's planet group is the middle block |
| GAHandler.MoonsOfInput | POPPY_Universe/Recommendation_Engine/Stand_Alone_Engine/Poppy_Universe_Engine/Layer5_Poppys_GA_Engine.cs:71 | the engine's moon group is the last block |
| GAHandler.OptimizeParts | POPPY_Universe/Recommendation_Engine/Poppy_Universe_Engine/Layer5_Poppys_GA_Handler.cs:60 | `ArgumentException` exactly for empty input; otherwise each of the three blocks is ranked by the stable sort under GA weights at least as fit as the initial population |
| GAHandler.RunOptimization | POPPY_Universe/Recommendation_Engine/Poppy_Universe_Engine/Layer5_Poppys_GA_Handler.cs:28-76 | the GA input is the star, planet and moon records of the Layer 1 lists; the engine's `ArgumentException` comes back when all three are empty; otherwise the star, planet and moon blocks are each ranked by the stable sort of their weighted ranks under GA weights at least as fit as the initial population |
| Views.ColorIndex | POPPY_Universe/Recommendation_Engine/Poppy_Universe_Engine/Star_Objects.cs:29 | present exactly when both BP and RP magnitudes are, and then equal to BP - RP |
| Views.DistancePc | POPPY_Universe/Recommendation_Engine/Poppy_Universe_Engine/Star_Objects.cs:38 | present exactly when the parallax is known and positive, and then a positive distance whose product with the parallax is 1000 |
| Views.ScoreCard.constructor | POPPY_Universe/Recommendation_Engine/Poppy_Universe_Engine/Star_View.cs:66-86 | a fresh view's score fields are all zero or empty |
| Views.StarView.constructor | POPPY_Universe/Recommendation_Engine/Poppy_Universe_Engine/Star_View.cs:23-57 | the view carries the star, its id and spectral type, the given position and visibility, and a fresh unscored card |
| Views.PlanetView.constructor | POPPY_Universe/Recommendation_Engine/Stand_Alone_Engine/Poppy_Universe_Engine/Planet_View.cs:23-89 | the view carries the planet, its id and type, the position, visibility, geocentric vector and equatorial coordinates, and a fresh unscored card |
| Views.MoonView.constructor | POPPY_Universe/Recommendation_Engine/Poppy_Universe_Engine/Moon_View.cs:22-51 | the view carries the moon, its id and parent, the position and visibility, and a fresh unscored card |
| Sorting.SortIndices | POPPY_Universe/Recommendation_Engine/Stand_Alone_Engine/Poppy_Universe_Engine/Layer5_Poppys_GA_Engine.cs:332 | LINQ's `OrderBy` on indices: a permutation of the candidates |
| Sorting.SortIndicesSorted | POPPY_Universe/Recommendation_Engine/Stand_Alone_Engine/Poppy_Universe_Engine/Layer5_Poppys_GA_Engine.cs:332 | the order is stably sorted: ascending keys, and equal keys keep their input order |
| Sorting.StablySortedUnique | POPPY_Universe/Recommendation_Engine/Stand_Alone_Engine/Poppy_Universe_Engine/Layer5_Poppys_GA_Engine.cs:332 | there is only one stable sorted order of given candidates, so the model's sort is LINQ's |
| Sorting.Where | POPPY_Universe/Recommendation_Engine/Stand_Alone_Engine/Poppy_Universe_Engine/Layer1_Star_Engine.cs:86 | LINQ's `Where` on indices: exactly the indices whose flag holds, in increasing order |
| Sorting.Take | POPPY_Universe/Recommendation_Engine/Stand_Alone_Engine/Poppy_Universe_Engine/Layer2_Poppys_Trend_Booster.cs:182 | LINQ's `Take(n)`: a prefix of length 0 for n <= 0, otherwise min(n, length) |
| Sorting.PickPermutes | POPPY_Universe/Recommendation_Engine/Stand_Alone_Engine/Poppy_Universe_Engine/Layer5_Poppys_GA_Engine.cs:332 | applying a permutation of the indices to a list gives a permutation of the list |
| Sorting.DescendingSortIsNonIncreasing | POPPY_Universe/Recommendation_Engine/Stand_Alone_Engine/Poppy_Universe_Engine/Layer1_Star_Engine.cs:146 | a list ordered by `OrderByDescending` has non-increasing keys |
| Sorting.AscendingSortIsNonDecreasing | POPPY_Universe/Recommendation_Engine/Stand_Alone_Engine/Poppy_Universe_Engine/Layer5_Poppys_GA_Engine.cs:332 | a list ordered by `OrderBy` has non-decreasing keys |
| Ranking.PositiveIndices | POPPY_Universe/Recommendation_Engine/Stand_Alone_Engine/Poppy_Universe_Engine/Layer2_Poppys_Trend_Booster.cs:176 | exactly the indices with a positive score, in increasing order |
| Ranking.TopOfSpec | POPPY_Universe/Recommendation_Engine/Stand_Alone_Engine/Poppy_Universe_Engine/Layer2_Poppys_Trend_Booster.cs:174-183 | the stable descending sort cut to n keeps min(n, candidates) distinct candidates, highest score first, and no candidate left out beats one kept |
| Ranking.TopPositiveSpec | POPPY_Universe/Recommendation_Engine/Stand_Alone_Engine/Poppy_Universe_Engine/Layer2_Poppys_Trend_Booster.cs:174-183 | `Where(score > 0).OrderByDescending(score).Take(n)` keeps only positive scores, at most n of them, best first |
| Ranking.TopSpec | POPPY_Universe/Recommendation_Engine/Poppy_Universe_Engine/Layer2_Poppys_Trend_Booster.cs:124-127 | `OrderByDescending(score).Take(n)` keeps exactly min(n, length) objects, best first |
| Ranking.CombinedTop | POPPY_Universe/Recommendation_Engine/Stand_Alone_Engine/Poppy_Universe_Engine/Layer3_Poppys_Matrix_Booster.cs:284-308 | stars, planets and moons in one list, the best `topN` of them, highest score first |
| Ranking.CombinedTopByTypeSpec | POPPY_Universe/Recommendation_Engine/Stand_Alone_Engine/Poppy_Universe_Engine/Layer4_Poppys_NN_Booster.cs:280-305 | the best `topN` of all three lists, highest score first, and among equal scores moons before planets before stars |
| Ranking.ScoreThenTypeKeys | POPPY_Universe/Recommendation_Engine/Stand_Alone_Engine/Poppy_Universe_Engine/Layer4_Poppys_NN_Booster.cs:301-302 | the key of each entry is its negated score, then its type name's order "moon" < "planet" < "star" |
| Boosting.Ceiling | POPPY_Universe/Recommendation_Engine/Stand_Alone_Engine/Poppy_Universe_Engine/Layer2_Poppys_Trend_Booster.cs:89-104 | the largest `score / (matchPct / 100)` over calibrating objects, or 0 when none calibrates; never negative |
| Boosting.CeilingSpec | POPPY_Universe/Recommendation_Engine/Stand_Alone_Engine/Poppy_Universe_Engine/Layer2_Poppys_Trend_Booster.cs:89-104 | the ceiling is at least every calibrating object's implied maximum and is 0 or one of them |
| Boosting.CeilingStep | POPPY_Universe/Recommendation_Engine/Stand_Alone_Engine/Poppy_Universe_Engine/Layer2_Poppys_Trend_Booster.cs:95-102 | one loop pass raises the running maximum exactly when the object calibrates and implies more |
| Boosting.MaxPossibleScore | POPPY_Universe/Recommendation_Engine/Stand_Alone_Engine/Poppy_Universe_Engine/Layer2_Poppys_Trend_Booster.cs:89-106 | the ceiling, or 100 when it is not positive; always positive |
| Boosting.ScoreWithinCeiling | POPPY_Universe/Recommendation_Engine/Stand_Alone_Engine/Poppy_Universe_Engine/Layer2_Poppys_Trend_Booster.cs:89-106 | every object with a percentage in (0, 100] and a non-negative score, and every non-positive score, lies within the ceiling |
| Boosting.ScoreWithinOwnMax | POPPY_Universe/Recommendation_Engine/Stand_Alone_Engine/Poppy_Universe_Engine/Layer2_Poppys_Trend_Booster.cs:98 | a positive score with a percentage in (0, 100] is at most the maximum that percentage implies |
| Boosting.MaxPossible | POPPY_Universe/Recommendation_Engine/Stand_Alone_Engine/Poppy_Universe_Engine/Layer2_Poppys_Trend_Booster.cs:89-106 | the loop over the cards returns `MaxPossibleScore` of their states |
| Boosting.MatchPercentageOf | POPPY_Universe/Recommendation_Engine/Stand_Alone_Engine/Poppy_Universe_Engine/Layer2_Poppys_Trend_Booster.cs:158-162 | `Round(score / max * 100, 2)` capped at 100: whole cents, at most 100, non-negative for a non-negative score, and uncapped for a score within the ceiling |
| Boosting.PercentageBounds | POPPY_Universe/Recommendation_Engine/Stand_Alone_Engine/Poppy_Universe_Engine/Layer2_Poppys_Trend_Booster.cs:158-162 | for a score in [0, max] the rounded percentage lies in [0, 100] |
| Boosting.Caps | POPPY_Universe/Recommendation_Engine/Stand_Alone_Engine/Poppy_Universe_Engine/Layer3_Poppys_Matrix_Booster.cs:160-171 | the boosted score after cap 1 (base + maxBoost) and cap 2 (the ceiling) is at most both caps and the boost |
| Boosting.CapsMonotone | POPPY_Universe/Recommendation_Engine/Stand_Alone_Engine/Poppy_Universe_Engine/Layer3_Poppys_Matrix_Booster.cs:160-171 | a larger boost never gives a lower capped score |
| Boosting.CentsText | POPPY_Universe/Recommendation_Engine/Poppy_Universe_Engine/Layer2_Poppys_Trend_Booster.cs:117 | `ToString()` of a non-negative value with at most two decimals reads back as that value |
| Boosting.TenthsText | POPPY_Universe/Recommendation_Engine/Poppy_Universe_Engine/Layer3_Poppys_Matrix_Booster-MSI.cs:136-138 | `ToString()` of a non-negative value with at most one decimal reads back as that value |
| Boosting.CentsReadBack | POPPY_Universe/Recommendation_Engine/Poppy_Universe_Engine/Layer2_Poppys_Trend_Booster.cs:117 | whole cents written with two decimals parse back to themselves |
| Boosting.CentsWritten | POPPY_Universe/Recommendation_Engine/Poppy_Universe_Engine/Layer2_Poppys_Trend_Booster.cs:117 | k written with two implied decimals parses as k / 100 |
| Boosting.TenthsReadBack | POPPY_Universe/Recommendation_Engine/Poppy_Universe_Engine/Layer3_Poppys_Matrix_Booster-MSI.cs:136-138 | whole tenths written with one decimal parse back to themselves |
| Boosting.TenthsWritten | POPPY_Universe/Recommendation_Engine/Poppy_Universe_Engine/Layer3_Poppys_Matrix_Booster-MSI.cs:136-138 | k written with one implied decimal parses as k / 10 |
| Boosting.TopPerType | POPPY_Universe/Recommendation_Engine/Stand_Alone_Engine/Poppy_Universe_Engine/Layer2_Poppys_Trend_Booster.cs:204 | a positive `topPerType` is kept, anything else becomes 5 |
| Boosting.BoostedByMeaning | POPPY_Universe/Recommendation_Engine/Stand_Alone_Engine/Poppy_Universe_Engine/Layer2_Poppys_Trend_Booster.cs:167-170 | the description is "No boost" exactly when the whole percentage is not positive, otherwise "Boosted by N%" with N readable back |
| Boosting.SetState | POPPY_Universe/Recommendation_Engine/Stand_Alone_Engine/Poppy_Universe_Engine/Layer2_Poppys_Trend_Booster.cs:156-170 | the three setters leave the card in the given state |
| TrendBooster.InteractionScore | POPPY_Universe/Recommendation_Engine/Stand_Alone_Engine/Poppy_Universe_Engine/Layer2_Poppys_Trend_Booster.cs:35-40 | 0 when the largest total is 0; a total within [0, max] gives a share in [0, 1] |
| TrendBooster.TrendingNormalized | POPPY_Universe/Recommendation_Engine/Stand_Alone_Engine/Poppy_Universe_Engine/Layer2_Poppys_Trend_Booster.cs:134 | the trend score clamped to [0, 100] as a fraction in [0, 1], exact for a score already in range |
| TrendBooster.BoostFactor | POPPY_Universe/Recommendation_Engine/Stand_Alone_Engine/Poppy_Universe_Engine/Layer2_Poppys_Trend_Booster.cs:132-137 | 0.6 times the volume share plus 0.4 times the trend fraction lies in [0, 1] for a total within the largest |
| TrendBooster.MaxInteractions | POPPY_Universe/Recommendation_Engine/Stand_Alone_Engine/Poppy_Universe_Engine/Layer2_Poppys_Trend_Booster.cs:110 | `Max` over a non-empty list: at least every total and equal to one of them |
| TrendBooster.FirstRepeat | POPPY_Universe/Recommendation_Engine/Stand_Alone_Engine/Poppy_Universe_Engine/Layer2_Poppys_Trend_Booster.cs:112 | none exactly when all row ids are distinct; otherwise the first position whose id occurred before, where `ToDictionary` throws |
| TrendBooster.LookupSpec | POPPY_Universe/Recommendation_Engine/Stand_Alone_Engine/Poppy_Universe_Engine/Layer2_Poppys_Trend_Booster.cs:121 | a found row is one of the rows and carries the object's id; nothing is found exactly when no row carries it |
| TrendBooster.CappedScore | POPPY_Universe/Recommendation_Engine/Stand_Alone_Engine/Poppy_Universe_Engine/Layer2_Poppys_Trend_Booster.cs:140-152 | at most the ceiling and at most a quarter of the ceiling above the base; never below a base within the ceiling for a non-negative factor |
| TrendBooster.BoostedScoreBounds | POPPY_Universe/Recommendation_Engine/Stand_Alone_Engine/Poppy_Universe_Engine/Layer2_Poppys_Trend_Booster.cs:140-155 | the rounded boosted score is at most the rounded ceiling and the rounded base + 0.25 of the ceiling, and not below the rounded base |
| TrendBooster.BoostOneBounds | POPPY_Universe/Recommendation_Engine/Stand_Alone_Engine/Poppy_Universe_Engine/Layer2_Poppys_Trend_Booster.cs:132-164 | a matched object scoring in [0, ceiling] ends between its rounded base and the rounded ceiling, with a percentage in [0, 100] |
| TrendBooster.BoostNeverLowers | POPPY_Universe/Recommendation_Engine/Stand_Alone_Engine/Poppy_Universe_Engine/Layer2_Poppys_Trend_Booster.cs:115-171 | in the loop, a matched object with a sound Layer 1 percentage is never lowered and never passes the rounded ceiling |
| TrendBooster.ReturnedSpec | POPPY_Universe/Recommendation_Engine/Stand_Alone_Engine/Poppy_Universe_Engine/Layer2_Poppys_Trend_Booster.cs:85-183 | nothing is returned without rows; otherwise only objects with a row and a positive final score, at most topN, best first |
| TrendBooster.LabelNoBoost | POPPY_Universe/Recommendation_Engine/Stand_Alone_Engine/Poppy_Universe_Engine/Layer2_Poppys_Trend_Booster.cs:80-83 | the loop writes "No boost" into every card and nothing else |
| TrendBooster.ApplyBoost | POPPY_Universe/Recommendation_Engine/Stand_Alone_Engine/Poppy_Universe_Engine/Layer2_Poppys_Trend_Booster.cs:115-171 | the loop leaves every card in its `BoostOne` state |
| TrendBooster.BoostScores | POPPY_Universe/Recommendation_Engine/Stand_Alone_Engine/Poppy_Universe_Engine/Layer2_Poppys_Trend_Booster.cs:56-184 | throws the duplicate-key `ArgumentException` exactly when there are objects, rows and a repeated row id, changing no card; otherwise the cards hold `Outcome` and the result is the returned objects |
| TrendBooster.RowsOfType | POPPY_Universe/Recommendation_Engine/Stand_Alone_Engine/Poppy_Universe_Engine/Layer2_Poppys_Trend_Booster.cs:215-243 | exactly the rows whose type equals the name, case-sensitively |
| TrendBooster.BoostPlanets | POPPY_Universe/Recommendation_Engine/Stand_Alone_Engine/Poppy_Universe_Engine/Layer2_Poppys_Trend_Booster.cs:226-237 | the planets boosted by their own rows, keyed by id |
| TrendBooster.BoostMoons | POPPY_Universe/Recommendation_Engine/Stand_Alone_Engine/Poppy_Universe_Engine/Layer2_Poppys_Trend_Booster.cs:240-251 | the moons boosted by their own rows, keyed by id |
| TrendBooster.BoostPlanetsAndMoons | POPPY_Universe/Recommendation_Engine/Stand_Alone_Engine/Poppy_Universe_Engine/Layer2_Poppys_Trend_Booster.cs:226-251 | planets then moons, each as `BoostScores` states, with the moon pass leaving the planet cards alone |
| TrendBooster.BoostAll | POPPY_Universe/Recommendation_Engine/Stand_Alone_Engine/Poppy_Universe_Engine/Layer2_Poppys_Trend_Booster.cs:195-258 | stars, planets and moons each boosted by the rows of their own type with `topPerType` (or 5); fails exactly when one of the three lookups meets a repeated id |
| HaloBooster.CategoryCountPositive | POPPY_Universe/Recommendation_Engine/Poppy_Universe_Engine/Layer2_Poppys_Trend_Booster.cs:70-76 | a category has a group exactly when some row's type is exactly that category |
| HaloBooster.FactorSumBounds | POPPY_Universe/Recommendation_Engine/Poppy_Universe_Engine/Layer2_Poppys_Trend_Booster.cs:74-75 | with totals in `[0, max]`, a category's summed factors lie between 0 and its row count |
| HaloBooster.CategoryAverageBounds | POPPY_Universe/Recommendation_Engine/Poppy_Universe_Engine/Layer2_Poppys_Trend_Booster.cs:70-76 | with totals in `[0, max]`, every category average lies in `[0, 1]` |
| HaloBooster.HaloNeedsCategoryRow | POPPY_Universe/Recommendation_Engine/Poppy_Universe_Engine/Layer2_Poppys_Trend_Booster.cs:88-104 | an object takes the halo branch exactly when no row carries its id, its category is non-empty and some row has exactly that type |
| HaloBooster.HaloFactorBounds | POPPY_Universe/Recommendation_Engine/Poppy_Universe_Engine/Layer2_Poppys_Trend_Booster.cs:96-103 | `(average + base / max * 0.05) * 0.45 * (0.9 + draw * 0.2)` lies in `[0, 0.51975]` for an average in `[0, 1]`, a base within the ceiling and a draw in `[0, 1)` |
| HaloBooster.RaisedScore | POPPY_Universe/Recommendation_Engine/Poppy_Universe_Engine/Layer2_Poppys_Trend_Booster.cs:63-107 | `Min(ceiling, base + 35% of the ceiling * factor)` never passes the ceiling, never lowers a base within it for a non-negative factor, and is `Min(ceiling, base)` without a boost |
| HaloBooster.BoostedScoreBounds | POPPY_Universe/Recommendation_Engine/Poppy_Universe_Engine/Layer2_Poppys_Trend_Booster.cs:106-107 | the rounded score is at most the rounded ceiling, at least the rounded base for a non-negative factor, and equal to a two-decimal base without a boost |
| HaloBooster.DescriptionMeaning | POPPY_Universe/Recommendation_Engine/Poppy_Universe_Engine/Layer2_Poppys_Trend_Booster.cs:116-117 | the description is "0" exactly when the percentage rose by at most 0.01; otherwise it reads back as the rounded rise, which is positive |
| HaloBooster.BoostOneBounds | POPPY_Universe/Recommendation_Engine/Poppy_Universe_Engine/Layer2_Poppys_Trend_Booster.cs:84-114 | one object with a score within the ceiling and a non-negative factor ends between its rounded base and the rounded ceiling, with a percentage in `[0, 100]` |
| HaloBooster.FactorNonNegative | POPPY_Universe/Recommendation_Engine/Poppy_Universe_Engine/Layer2_Poppys_Trend_Booster.cs:86-104 | whichever branch is taken (direct, halo, none), the factor is non-negative for totals in `[0, max]` and a draw in `[0, 1)` |
| HaloBooster.MatchFactorNonNegative | POPPY_Universe/Recommendation_Engine/Poppy_Universe_Engine/Layer2_Poppys_Trend_Booster.cs:64-104 | against the largest total of non-negative rows, every object's factor is non-negative |
| HaloBooster.BoostWithinCeiling | POPPY_Universe/Recommendation_Engine/Poppy_Universe_Engine/Layer2_Poppys_Trend_Booster.cs:49-114 | in the loop, every object with a sound Layer 1 percentage, matched or not, ends between its rounded base and the rounded ceiling, with a percentage in `[0, 100]` |
| HaloBooster.BoostWithBounds | POPPY_Universe/Recommendation_Engine/Poppy_Universe_Engine/Layer2_Poppys_Trend_Booster.cs:79-114 | the same bound for object `i` once its branch is known |
| HaloBooster.BoostAtBounds | POPPY_Universe/Recommendation_Engine/Poppy_Universe_Engine/Layer2_Poppys_Trend_Booster.cs:79-114 | the same bound for one object drawing at its own stream position |
| HaloBooster.UnmatchedKeepsScore | POPPY_Universe/Recommendation_Engine/Poppy_Universe_Engine/Layer2_Poppys_Trend_Booster.cs:86-112 | an object with neither its own row nor a halo keeps a two-decimal score within the ceiling and gets the percentage that score implies |
| HaloBooster.HaloCountSnoc | POPPY_Universe/Recommendation_Engine/Poppy_Universe_Engine/Layer2_Poppys_Trend_Booster.cs:99-101 | one more object adds one draw exactly when it is a halo object |
| HaloBooster.BoostAtDraw | POPPY_Universe/Recommendation_Engine/Poppy_Universe_Engine/Layer2_Poppys_Trend_Booster.cs:94-104 | only the halo branch reads the random draw |
| HaloBooster.BoostCard | POPPY_Universe/Recommendation_Engine/Poppy_Universe_Engine/Layer2_Poppys_Trend_Booster.cs:79-122 | one pass draws exactly when the object is a halo object and writes its `BoostAt` state |
| HaloBooster.ApplyBoost | POPPY_Universe/Recommendation_Engine/Poppy_Universe_Engine/Layer2_Poppys_Trend_Booster.cs:79-122 | the loop leaves every card in its `BoostWith` state and moves the generator past one draw per halo object |
| HaloBooster.BoostScores | POPPY_Universe/Recommendation_Engine/Poppy_Universe_Engine/Layer2_Poppys_Trend_Booster.cs:30-128 | throws the duplicate-key `ArgumentException` exactly when there are objects, rows and a repeated id, writing no card and drawing nothing; without rows it returns the best `topN` by Layer 1 score; otherwise the cards hold the outcome and the result is the best `topN` by new score |
| HaloBooster.RowsOfCategory | POPPY_Universe/Recommendation_Engine/Poppy_Universe_Engine/Layer2_Poppys_Trend_Booster.cs:142-190 | exactly the rows whose type contains the name, ignoring case |
| HaloBooster.HaloOnlyForMatchingCategory | POPPY_Universe/Recommendation_Engine/Poppy_Universe_Engine/Layer2_Poppys_Trend_Booster.cs:94-190 | a halo needs an object category that itself contains the type, ignoring case: a planet whose `Type` lacks "planet" is never halo-boosted |
| HaloBooster.Constant | POPPY_Universe/Recommendation_Engine/Poppy_Universe_Engine/Layer2_Poppys_Trend_Booster.cs:144-170 | every star gets the category "Star" and every moon "Moon" |
| HaloBooster.PlanetTypes | POPPY_Universe/Recommendation_Engine/Poppy_Universe_Engine/Layer2_Poppys_Trend_Booster.cs:157 | each planet's category is its own `Type` |
| HaloBooster.BoostMoons | POPPY_Universe/Recommendation_Engine/Poppy_Universe_Engine/Layer2_Poppys_Trend_Booster.cs:166-177 | the moons boosted under "Moon" and keyed by id, leaving every other card alone |
| HaloBooster.BoostPlanets | POPPY_Universe/Recommendation_Engine/Poppy_Universe_Engine/Layer2_Poppys_Trend_Booster.cs:153-164 | the planets boosted under their own `Type` and keyed by id, leaving every other card alone |
| HaloBooster.BoostPlanetsAndMoons | POPPY_Universe/Recommendation_Engine/Poppy_Universe_Engine/Layer2_Poppys_Trend_Booster.cs:153-177 | planets then moons, the moons drawing where the planets stopped; fails exactly when either lookup meets a repeated id |
| HaloBooster.BoostAll | POPPY_Universe/Recommendation_Engine/Poppy_Universe_Engine/Layer2_Poppys_Trend_Booster.cs:130-185 | stars, planets, then moons, each against the rows whose type contains its own, with one shared generator and `topPerType` (or 5); fails exactly when one of the three lookups meets a repeated id |
| PreferenceMatrix.Normalize | POPPY_Universe/Recommendation_Engine/Stand_Alone_Engine/Poppy_Universe_Engine/Layer3_Poppys_Matrix_Booster.cs:35 | a preference clamped to `[0, 10]` as a fraction in `[0, 1]`: exact inside the range, 0 below it, 1 above it |
| PreferenceMatrix.SpectralPreference | POPPY_Universe/Recommendation_Engine/Stand_Alone_Engine/Poppy_Universe_Engine/Layer3_Poppys_Matrix_Booster.cs:45-55 | a text other than the seven class letters falls to the `switch` default |
| PreferenceMatrix.CategoryPreference | POPPY_Universe/Recommendation_Engine/Stand_Alone_Engine/Poppy_Universe_Engine/Layer3_Poppys_Matrix_Booster.cs:67-74 | a text other than the four categories falls to the `switch` default |
| PreferenceMatrix.ParentPreference | POPPY_Universe/Recommendation_Engine/Stand_Alone_Engine/Poppy_Universe_Engine/Layer3_Poppys_Matrix_Booster.cs:86-99 | a text other than the ten parents falls to the `switch` default |
| MatrixBooster.StarPreference | POPPY_Universe/Recommendation_Engine/Stand_Alone_Engine/Poppy_Universe_Engine/Layer3_Poppys_Matrix_Booster.cs:41-57 | the upper-cased spectral type picks the column, normalised into `[0, 1]`; any other text scores 0 |
| MatrixBooster.StarPreferenceExamples | POPPY_Universe/Recommendation_Engine/Stand_Alone_Engine/Poppy_Universe_Engine/Layer3_Poppys_Matrix_Booster.cs:43-54 | "g" reaches the G column, but a full type such as "G2V" scores 0 |
| MatrixBooster.PlanetPreference | POPPY_Universe/Recommendation_Engine/Stand_Alone_Engine/Poppy_Universe_Engine/Layer3_Poppys_Matrix_Booster.cs:63-76 | the exact category picks the column, normalised into `[0, 1]`; any other text scores 0 |
| MatrixBooster.PlanetPreferenceCaseSensitive | POPPY_Universe/Recommendation_Engine/Stand_Alone_Engine/Poppy_Universe_Engine/Layer3_Poppys_Matrix_Booster.cs:67-73 | "Gas Giant" reaches its column and "gas giant" scores 0 |
| MatrixBooster.MoonPreference | POPPY_Universe/Recommendation_Engine/Stand_Alone_Engine/Poppy_Universe_Engine/Layer3_Poppys_Matrix_Booster.cs:82-101 | the exact parent picks the column, normalised into `[0, 1]`; any other text scores 0 |
| MatrixBooster.CappedScore | POPPY_Universe/Recommendation_Engine/Stand_Alone_Engine/Poppy_Universe_Engine/Layer3_Poppys_Matrix_Booster.cs:157-171 | at most the ceiling and at most half the ceiling above the base; never below a base within the ceiling for a non-negative preference |
| MatrixBooster.BoostValueMonotone | POPPY_Universe/Recommendation_Engine/Stand_Alone_Engine/Poppy_Universe_Engine/Layer3_Poppys_Matrix_Booster.cs:148-157 | the boost keeps the order of the preferences and is 0 at preference 0 |
| MatrixBooster.CappedScoreUncapped | POPPY_Universe/Recommendation_Engine/Stand_Alone_Engine/Poppy_Universe_Engine/Layer3_Poppys_Matrix_Booster.cs:163-171 | for a preference in `[0, 1]` cap 1 never binds |
| MatrixBooster.BoostedScoreBounds | POPPY_Universe/Recommendation_Engine/Stand_Alone_Engine/Poppy_Universe_Engine/Layer3_Poppys_Matrix_Booster.cs:157-174 | the rounded score is at most the rounded ceiling and the rounded base + half the ceiling, and not below the rounded base |
| MatrixBooster.BoostedScoreMonotone | POPPY_Universe/Recommendation_Engine/Stand_Alone_Engine/Poppy_Universe_Engine/Layer3_Poppys_Matrix_Booster.cs:157-174 | a higher preference never lowers the boosted score |
| MatrixBooster.CappedMonotone | POPPY_Universe/Recommendation_Engine/Stand_Alone_Engine/Poppy_Universe_Engine/Layer3_Poppys_Matrix_Booster.cs:157-171 | before rounding, a higher preference never lowers the score |
| MatrixBooster.BoostOneBounds | POPPY_Universe/Recommendation_Engine/Stand_Alone_Engine/Poppy_Universe_Engine/Layer3_Poppys_Matrix_Booster.cs:151-190 | one object within the ceiling ends between its rounded base and the rounded ceiling, with a percentage in `[0, 100]`; "No boost" exactly when the rounded gain is not positive; its visibility fields are untouched |
| MatrixBooster.ZeroScoreRaised | POPPY_Universe/Recommendation_Engine/Stand_Alone_Engine/Poppy_Universe_Engine/Layer3_Poppys_Matrix_Booster.cs:151-175 | an object at score 0 is not skipped: with the full preference under a ceiling of 100 it rises to 50 |
| MatrixBooster.BoostWithinCeiling | POPPY_Universe/Recommendation_Engine/Stand_Alone_Engine/Poppy_Universe_Engine/Layer3_Poppys_Matrix_Booster.cs:127-190 | in the loop, an object with a sound Layer 1 percentage and a non-negative preference is never lowered and never passes the rounded ceiling |
| MatrixBooster.ReturnedSpec | POPPY_Universe/Recommendation_Engine/Stand_Alone_Engine/Poppy_Universe_Engine/Layer3_Poppys_Matrix_Booster.cs:193-202 | only objects with a positive boosted score are returned, at most `topN`, best first; an empty list returns nothing |
| MatrixBooster.ApplyBoost | POPPY_Universe/Recommendation_Engine/Stand_Alone_Engine/Poppy_Universe_Engine/Layer3_Poppys_Matrix_Booster.cs:151-190 | the loop leaves every card in its `BoostOne` state |
| MatrixBooster.BoostScores | POPPY_Universe/Recommendation_Engine/Stand_Alone_Engine/Poppy_Universe_Engine/Layer3_Poppys_Matrix_Booster.cs:109-203 | the cards hold every object boosted against the ceiling of its list and the result is the returned objects |
| MatrixBooster.NothingToBoost | POPPY_Universe/Recommendation_Engine/Stand_Alone_Engine/Poppy_Universe_Engine/Layer3_Poppys_Matrix_Booster.cs:121-122 | an empty list is returned as it is |
| MatrixBooster.StarPreferences | POPPY_Universe/Recommendation_Engine/Stand_Alone_Engine/Poppy_Universe_Engine/Layer3_Poppys_Matrix_Booster.cs:237 | one preference per star |
| MatrixBooster.PlanetPreferences | POPPY_Universe/Recommendation_Engine/Stand_Alone_Engine/Poppy_Universe_Engine/Layer3_Poppys_Matrix_Booster.cs:250 | one preference per planet |
| MatrixBooster.MoonPreferences | POPPY_Universe/Recommendation_Engine/Stand_Alone_Engine/Poppy_Universe_Engine/Layer3_Poppys_Matrix_Booster.cs:263 | one preference per moon |
| MatrixBooster.BoostKeeping | POPPY_Universe/Recommendation_Engine/Stand_Alone_Engine/Poppy_Universe_Engine/Layer3_Poppys_Matrix_Booster.cs:232-268 | one list boosted as `BoostScores` does, the cards of the two other lists unchanged |
| MatrixBooster.BoostAll | POPPY_Universe/Recommendation_Engine/Stand_Alone_Engine/Poppy_Universe_Engine/Layer3_Poppys_Matrix_Booster.cs:214-277 | stars, planets and moons each boosted by their own preferences with `topPerType` (or 5) |
| MsiMatrixBooster.StarPreference | POPPY_Universe/Recommendation_Engine/Poppy_Universe_Engine/Layer3_Poppys_Matrix_Booster-MSI.cs:24-40 | the first letter of the spectral type, upper-cased, picks the column, normalised into `[0, 1]` |
| MsiMatrixBooster.StarPreferenceSpec | POPPY_Universe/Recommendation_Engine/Poppy_Universe_Engine/Layer3_Poppys_Matrix_Booster-MSI.cs:26-38 | an empty type or a letter without a column scores the neutral 0.5, and two types with the same first letter in either case score alike |
| MsiMatrixBooster.StarPreferenceExamples | POPPY_Universe/Recommendation_Engine/Poppy_Universe_Engine/Layer3_Poppys_Matrix_Booster-MSI.cs:27 | "G2V" reaches the G column and "k" the K column |
| MsiMatrixBooster.PlanetPreferenceAsWrittenIsNeutral | POPPY_Universe/Recommendation_Engine/Poppy_Universe_Engine/Layer3_Poppys_Matrix_Booster-MSI.cs:42-54 | as written, the lower-cased type never contains a capitalised keyword, so every planet scores the neutral 0.5 |
| MsiMatrixBooster.LoweredHasNoCapital | POPPY_Universe/Recommendation_Engine/Poppy_Universe_Engine/Layer3_Poppys_Matrix_Booster-MSI.cs:45-51 | a lower-cased text never contains a text starting with a capital |
| MsiMatrixBooster.PlanetPreference | POPPY_Universe/Recommendation_Engine/Poppy_Universe_Engine/Layer3_Poppys_Matrix_Booster-MSI.cs:42-54 | the corrected lookup, with lower-case keywords, normalised into `[0, 1]` |
| MsiMatrixBooster.PlanetPreferenceCategories | POPPY_Universe/Recommendation_Engine/Poppy_Universe_Engine/Layer3_Poppys_Matrix_Booster-MSI.cs:44-53 | corrected, each catalogue category reaches its own column whatever its case, and a type with no keyword is neutral |
| MsiMatrixBooster.MoonPreference | POPPY_Universe/Recommendation_Engine/Poppy_Universe_Engine/Layer3_Poppys_Matrix_Booster-MSI.cs:56-74 | the parent's column normalised into `[0, 1]`; a parent without a column is neutral 0.5 |
| MsiMatrixBooster.Multiplier | POPPY_Universe/Recommendation_Engine/Poppy_Universe_Engine/Layer3_Poppys_Matrix_Booster-MSI.cs:119 | non-negative, zero up to a preference of 0.4, and at most 1.002 for a normalised preference |
| MsiMatrixBooster.ScaledBoostOfBase | POPPY_Universe/Recommendation_Engine/Poppy_Universe_Engine/Layer3_Poppys_Matrix_Booster-MSI.cs:106-124 | the ceiling cancels out: the boost is half the multiplier times the base |
| MsiMatrixBooster.BoostedScoreBounds | POPPY_Universe/Recommendation_Engine/Poppy_Universe_Engine/Layer3_Poppys_Matrix_Booster-MSI.cs:119-127 | the rounded score is at most the rounded ceiling and the rounded base plus half the multiplier times the base (at most 1.501 times the base), never below the rounded base of an object within the ceiling, and exactly the rounded base at a preference of at most 0.4 |
| MsiMatrixBooster.BoostedScoreMonotone | POPPY_Universe/Recommendation_Engine/Poppy_Universe_Engine/Layer3_Poppys_Matrix_Booster-MSI.cs:119-127 | for a non-negative base, a higher preference never lowers the boosted score |
| MsiMatrixBooster.DescriptionMeaning | POPPY_Universe/Recommendation_Engine/Poppy_Universe_Engine/Layer3_Poppys_Matrix_Booster-MSI.cs:136-139 | "0" exactly when the percentage rose by at most 0.001; otherwise "+", a text reading back as the rise rounded to one decimal, and "% Personalized"; a rise of at most 0.05 shows as "+0% Personalized" |
| MsiMatrixBooster.SmallRise | POPPY_Universe/Recommendation_Engine/Poppy_Universe_Engine/Layer3_Poppys_Matrix_Booster-MSI.cs:136-139 | a rise in `(0.001, 0.05]` is reported as "+0% Personalized" |
| MsiMatrixBooster.BoostOneBounds | POPPY_Universe/Recommendation_Engine/Poppy_Universe_Engine/Layer3_Poppys_Matrix_Booster-MSI.cs:108-145 | one object within the ceiling ends between its rounded base and the rounded ceiling, with a percentage in `[0, 100]`; below the 0.4 threshold it keeps its rounded base; its visibility fields are untouched |
| MsiMatrixBooster.BoostWithinCeiling | POPPY_Universe/Recommendation_Engine/Poppy_Universe_Engine/Layer3_Poppys_Matrix_Booster-MSI.cs:92-145 | in the loop, an object with a sound Layer 1 percentage is never lowered and never passes the rounded ceiling |
| MsiMatrixBooster.ReturnedSpec | POPPY_Universe/Recommendation_Engine/Poppy_Universe_Engine/Layer3_Poppys_Matrix_Booster-MSI.cs:147-151 | only objects with a positive boosted score are returned, at most `topN`, best first; an empty list returns nothing |
| MsiMatrixBooster.ApplyBoost | POPPY_Universe/Recommendation_Engine/Poppy_Universe_Engine/Layer3_Poppys_Matrix_Booster-MSI.cs:108-145 | the loop leaves every card in its `BoostOne` state |
| MsiMatrixBooster.BoostScores | POPPY_Universe/Recommendation_Engine/Poppy_Universe_Engine/Layer3_Poppys_Matrix_Booster-MSI.cs:76-152 | the cards hold every object boosted against the ceiling of its list and the result is the returned objects |
| MsiMatrixBooster.NothingToBoost | POPPY_Universe/Recommendation_Engine/Poppy_Universe_Engine/Layer3_Poppys_Matrix_Booster-MSI.cs:88 | an empty list is returned as it is |
| MsiMatrixBooster.StarPreferences | POPPY_Universe/Recommendation_Engine/Poppy_Universe_Engine/Layer3_Poppys_Matrix_Booster-MSI.cs:164 | one preference per star |
| MsiMatrixBooster.PlanetPreferences | POPPY_Universe/Recommendation_Engine/Poppy_Universe_Engine/Layer3_Poppys_Matrix_Booster-MSI.cs:165 | one preference per planet, by `ComputePlanetScore` as written |
| MsiMatrixBooster.PlanetPreferencesNeutral | POPPY_Universe/Recommendation_Engine/Poppy_Universe_Engine/Layer3_Poppys_Matrix_Booster-MSI.cs:165 | the planet preferences `BoostAll` passes, by `ComputePlanetScore` as written, are all the neutral 0.5 |
| MsiMatrixBooster.PlanetPreferencesCorrected | POPPY_Universe/Recommendation_Engine/Poppy_Universe_Engine/Layer3_Poppys_Matrix_Booster-MSI.cs:165 | one preference per planet by the corrected lookup, each in `[0, 1]` |
| MsiMatrixBooster.MoonPreferences | POPPY_Universe/Recommendation_Engine/Poppy_Universe_Engine/Layer3_Poppys_Matrix_Booster-MSI.cs:166 | one preference per moon |
| MsiMatrixBooster.BoostKeeping | POPPY_Universe/Recommendation_Engine/Poppy_Universe_Engine/Layer3_Poppys_Matrix_Booster-MSI.cs:164-166 | one list boosted as `BoostScores` does, the cards of the two other lists unchanged |
| MsiMatrixBooster.BoostAll | POPPY_Universe/Recommendation_Engine/Poppy_Universe_Engine/Layer3_Poppys_Matrix_Booster-MSI.cs:154-174 | stars, planets and moons each boosted by their own preferences with `topPerType` (or 5), the planets by the lookup as written |
| MsiMatrixBooster.BoostAllCorrected | POPPY_Universe/Recommendation_Engine/Poppy_Universe_Engine/Layer3_Poppys_Matrix_Booster-MSI.cs:154-174 | `BoostAll` with the corrected planet lookup |
| MsiMatrixBooster.BoostLists | POPPY_Universe/Recommendation_Engine/Poppy_Universe_Engine/Layer3_Poppys_Matrix_Booster-MSI.cs:162-173 | the three lists boosted one after the other by the given preferences, each against the ceiling of its own list |
| NNBooster.Weighted | POPPY_Universe/Recommendation_Engine/Stand_Alone_Engine/Poppy_Universe_Engine/Layer4_Poppys_NN_Booster.cs:164-168 | the weights 0.3 and 0.7 sum to 1, so the weighted score is the base plus the boost |
| NNBooster.BoostValueMonotone | POPPY_Universe/Recommendation_Engine/Stand_Alone_Engine/Poppy_Universe_Engine/Layer4_Poppys_NN_Booster.cs:153-162 | the boost keeps the order of the preferences and is 0 at preference 0 |
| NNBooster.CappedScore | POPPY_Universe/Recommendation_Engine/Stand_Alone_Engine/Poppy_Universe_Engine/Layer4_Poppys_NN_Booster.cs:161-177 | at most the ceiling and at most three quarters of the ceiling above the base; never below a base within the ceiling for a non-negative preference |
| NNBooster.CappedScoreUncapped | POPPY_Universe/Recommendation_Engine/Stand_Alone_Engine/Poppy_Universe_Engine/Layer4_Poppys_NN_Booster.cs:170-177 | for a preference in `[0, 1]` cap 1 never binds |
| NNBooster.CappedMonotone | POPPY_Universe/Recommendation_Engine/Stand_Alone_Engine/Poppy_Universe_Engine/Layer4_Poppys_NN_Booster.cs:161-177 | before rounding, a higher preference never lowers the score |
| NNBooster.BoostedScoreBounds | POPPY_Universe/Recommendation_Engine/Stand_Alone_Engine/Poppy_Universe_Engine/Layer4_Poppys_NN_Booster.cs:161-180 | the rounded score is at most the rounded ceiling and the rounded base + three quarters of the ceiling, and not below the rounded base |
| NNBooster.BoostedScoreMonotone | POPPY_Universe/Recommendation_Engine/Stand_Alone_Engine/Poppy_Universe_Engine/Layer4_Poppys_NN_Booster.cs:161-180 | with a `Math.Pow(x, 1.2)` that keeps order on `[0, 1]`, a higher predicted preference never lowers the boosted score |
| NNBooster.NNBoostedByMeaning | POPPY_Universe/Recommendation_Engine/Stand_Alone_Engine/Poppy_Universe_Engine/Layer4_Poppys_NN_Booster.cs:193-196 | "No NN boost" exactly when the whole percentage is not positive, otherwise "NN Boosted by N%" with N readable back |
| NNBooster.BoostOneBounds | POPPY_Universe/Recommendation_Engine/Stand_Alone_Engine/Poppy_Universe_Engine/Layer4_Poppys_NN_Booster.cs:155-197 | one object within the ceiling ends between its rounded base and the rounded ceiling, with a percentage in `[0, 100]`; "No NN boost" exactly when the rounded gain is not positive; its visibility fields are untouched |
| NNBooster.BoostWithinCeiling | POPPY_Universe/Recommendation_Engine/Stand_Alone_Engine/Poppy_Universe_Engine/Layer4_Poppys_NN_Booster.cs:132-197 | in the loop, an object with a sound Layer 3 percentage and a preference in `[0, 1]` is never lowered and never passes the rounded ceiling |
| NNBooster.ReturnedSpec | POPPY_Universe/Recommendation_Engine/Stand_Alone_Engine/Poppy_Universe_Engine/Layer4_Poppys_NN_Booster.cs:200-205 | only objects with a positive boosted score are returned, at most `topN`, best first; an empty list returns nothing |
| NNBooster.ApplyBoost | POPPY_Universe/Recommendation_Engine/Stand_Alone_Engine/Poppy_Universe_Engine/Layer4_Poppys_NN_Booster.cs:155-197 | the loop leaves every card in its `BoostOne` state |
| NNBooster.BoostScores | POPPY_Universe/Recommendation_Engine/Stand_Alone_Engine/Poppy_Universe_Engine/Layer4_Poppys_NN_Booster.cs:114-206 | the cards hold every object boosted against the ceiling of its list and the result is the returned objects |
| NNBooster.NothingToBoost | POPPY_Universe/Recommendation_Engine/Stand_Alone_Engine/Poppy_Universe_Engine/Layer4_Poppys_NN_Booster.cs:126-127 | an empty list is returned as it is |
| NNBooster.StarPreferences | POPPY_Universe/Recommendation_Engine/Stand_Alone_Engine/Poppy_Universe_Engine/Layer4_Poppys_NN_Booster.cs:45-61 | one preference in `[0, 1]` per star, looked up as in Layer 3 |
| NNBooster.PlanetPreferences | POPPY_Universe/Recommendation_Engine/Stand_Alone_Engine/Poppy_Universe_Engine/Layer4_Poppys_NN_Booster.cs:67-80 | one preference in `[0, 1]` per planet, looked up as in Layer 3 |
| NNBooster.MoonPreferences | POPPY_Universe/Recommendation_Engine/Stand_Alone_Engine/Poppy_Universe_Engine/Layer4_Poppys_NN_Booster.cs:86-105 | one preference in `[0, 1]` per moon, looked up as in Layer 3 |
| NNBooster.BoostKeeping | POPPY_Universe/Recommendation_Engine/Stand_Alone_Engine/Poppy_Universe_Engine/Layer4_Poppys_NN_Booster.cs:228-264 | one list boosted as `BoostScores` does, the cards of the two other lists unchanged |
| NNBooster.BoostAll | POPPY_Universe/Recommendation_Engine/Stand_Alone_Engine/Poppy_Universe_Engine/Layer4_Poppys_NN_Booster.cs:211-273 | stars, planets and moons each boosted by their own predictions with `topPerType` (or 5) |
| NNBooster.Predictions | POPPY_Universe/Recommendation_Engine/Stand_Alone_Engine/Poppy_Universe_Engine/Layer4_Poppys_NN_Booster.cs:316-326 | the 21 predictions: seven classes, four categories, ten parents |
| NNBooster.SquaredDeviations | POPPY_Universe/Recommendation_Engine/Stand_Alone_Engine/Poppy_Universe_Engine/Layer4_Poppys_NN_Booster.cs:330 | each prediction's squared distance from the mean |
| NNBooster.TotalNonNegative | POPPY_Universe/Recommendation_Engine/Stand_Alone_Engine/Poppy_Universe_Engine/Layer4_Poppys_NN_Booster.cs:330 | a total of non-negative values is non-negative |
| NNBooster.TotalOfConstant | POPPY_Universe/Recommendation_Engine/Stand_Alone_Engine/Poppy_Universe_Engine/Layer4_Poppys_NN_Booster.cs:328-330 | `n` copies of `c` total `n * c` |
| NNBooster.VarianceBounds | POPPY_Universe/Recommendation_Engine/Stand_Alone_Engine/Poppy_Universe_Engine/Layer4_Poppys_NN_Booster.cs:328-330 | the variance is never negative, and is 0 for equal predictions |
| NNBooster.Confidence | POPPY_Universe/Recommendation_Engine/Stand_Alone_Engine/Poppy_Universe_Engine/Layer4_Poppys_NN_Booster.cs:313-337 | the confidence lies in `[0, 1]` and is 1 exactly when the standard deviation is at least 2 |
| NNBooster.FlatPredictionsNoConfidence | POPPY_Universe/Recommendation_Engine/Stand_Alone_Engine/Poppy_Universe_Engine/Layer4_Poppys_NN_Booster.cs:313-337 | equal predictions carry confidence 0 |
| Weather.ProcessedHours | POPPY_Universe/Recommendation_Engine/Stand_Alone_Engine/Poppy_Universe_Engine/WeatherChecker.cs:79 | the loop stops when either list runs out or after `hours` hours, whichever comes first |
| Weather.TimeWeight | POPPY_Universe/Recommendation_Engine/Stand_Alone_Engine/Poppy_Universe_Engine/WeatherChecker.cs:102-103 | 1 for the first hour, 0.05 less each hour, never below 0.5 |
| Weather.PrecipFactorBands | POPPY_Universe/Recommendation_Engine/Stand_Alone_Engine/Poppy_Universe_Engine/WeatherChecker.cs:108-118 | the precipitation factor lies in `[0.05, 1]`, is 1 exactly for a dry hour, and never rises with more rain |
| Weather.CloudFactorBands | POPPY_Universe/Recommendation_Engine/Stand_Alone_Engine/Poppy_Universe_Engine/WeatherChecker.cs:121-134 | the cloud factor is 1 up to the threshold and lies in `[0.1, 0.85]` above it |
| Weather.WindFactorBands | POPPY_Universe/Recommendation_Engine/Stand_Alone_Engine/Poppy_Universe_Engine/WeatherChecker.cs:137-141 | the wind factor is 1 up to 30 km/h and never below 0.85 |
| Weather.HourScore | POPPY_Universe/Recommendation_Engine/Stand_Alone_Engine/Poppy_Universe_Engine/WeatherChecker.cs:105-148 | every hour scores in `[0, 1]` |
| Weather.ClearHourScoresOne | POPPY_Universe/Recommendation_Engine/Stand_Alone_Engine/Poppy_Universe_Engine/WeatherChecker.cs:105-148 | a dry hour at most at the threshold, with wind of at most 30 km/h, scores 1 |
| Weather.ScoreOfHour | POPPY_Universe/Recommendation_Engine/Stand_Alone_Engine/Poppy_Universe_Engine/WeatherChecker.cs:81-89 | hour `i` scores in `[0, 1]`, with wind 0 once the wind list is absent or exhausted |
| Weather.Totals | POPPY_Universe/Recommendation_Engine/Stand_Alone_Engine/Poppy_Universe_Engine/WeatherChecker.cs:150-151 | the weighted score total lies between 0 and the weight total, which is at least half the hours |
| Weather.WeightedWithin | POPPY_Universe/Recommendation_Engine/Stand_Alone_Engine/Poppy_Universe_Engine/WeatherChecker.cs:150 | a score in `[0, 1]` times a positive weight is at most the weight |
| Weather.ChanceBounds | POPPY_Universe/Recommendation_Engine/Stand_Alone_Engine/Poppy_Universe_Engine/WeatherChecker.cs:158 | the chance lies in `[0, 100]` and is 0 when no hour is processed |
| Weather.MeanPercent | POPPY_Universe/Recommendation_Engine/Stand_Alone_Engine/Poppy_Universe_Engine/WeatherChecker.cs:158 | a weighted mean of `[0, 1]` scores is a percentage, and 100 when every hour scored 1 |
| Weather.ClearSkiesFullChance | POPPY_Universe/Recommendation_Engine/Stand_Alone_Engine/Poppy_Universe_Engine/WeatherChecker.cs:79-158 | when every processed hour is clear, and at least one is processed, the chance is exactly 100 |
| Weather.ClearTotals | POPPY_Universe/Recommendation_Engine/Stand_Alone_Engine/Poppy_Universe_Engine/WeatherChecker.cs:150-151 | clear hours add as much score as weight |
| Weather.TallyOf | POPPY_Universe/Recommendation_Engine/Stand_Alone_Engine/Poppy_Universe_Engine/WeatherChecker.cs:92-99 | each counter is at most the number of hours, rain hours are counted once, and the maximum precipitation is non-negative |
| Weather.CountHour | POPPY_Universe/Recommendation_Engine/Stand_Alone_Engine/Poppy_Universe_Engine/WeatherChecker.cs:92-99 | one hour raises each counter by at most 1 and never lowers the maximum precipitation |
| Weather.TallySpec | POPPY_Universe/Recommendation_Engine/Stand_Alone_Engine/Poppy_Universe_Engine/WeatherChecker.cs:96-98 | the maximum precipitation bounds every hour and is 0 or reached by one; all-dry hours count no rain |
| Weather.ReasonFollowsBand | POPPY_Universe/Recommendation_Engine/Stand_Alone_Engine/Poppy_Universe_Engine/WeatherChecker.cs:174-237 | the reason always comes from the band of the chance (85, 70, 50, 30); among excellent ones "Exceptional" exactly when the mean cloud cover is below 20%; heavy rain quotes the maximum only above 7.5 mm/h |
| Weather.VisibilityCalculator.constructor | POPPY_Universe/Recommendation_Engine/Stand_Alone_Engine/Poppy_Universe_Engine/WeatherChecker.cs:14-17 | a calculator for the user, with no hours requested yet |
| Weather.VisibilityCalculator.FetchWeather | POPPY_Universe/Recommendation_Engine/Stand_Alone_Engine/Poppy_Universe_Engine/WeatherChecker.cs:22-35 | records the requested hours and returns the forecast |
| Weather.VisibilityCalculator.ComputeWeatherChanceWithReason | POPPY_Universe/Recommendation_Engine/Stand_Alone_Engine/Poppy_Universe_Engine/WeatherChecker.cs:40-173 | the chance is the time-weighted mean over the processed hours, and the reason is chosen from the counters, the mean cloud cover and that chance |
| Weather.CountOneHour | POPPY_Universe/Recommendation_Engine/Stand_Alone_Engine/Poppy_Universe_Engine/WeatherChecker.cs:92-99 | the counting part of one loop pass gives `CountHour` |
| Weather.WeighOneHour | POPPY_Universe/Recommendation_Engine/Stand_Alone_Engine/Poppy_Universe_Engine/WeatherChecker.cs:102-151 | the scoring part of one loop pass adds the hour's score times its weight, and its weight |
| Weather.UnfetchedChanceIsZero | POPPY_Universe/Recommendation_Engine/Stand_Alone_Engine/Poppy_Universe_Engine/WeatherChecker.cs:79-158 | before any fetch no hour is processed, so the chance is 0 |
| Layer1.Rated | POPPY_Universe/Recommendation_Engine/Stand_Alone_Engine/Poppy_Universe_Engine/Layer1_Star_Engine.cs:137-142 | the score rounded to cents, the match percentage at most 100 (and not negative for a non-negative score), the weather chance rounded and the reason as given |
| Layer1.Percentage | POPPY_Universe/Recommendation_Engine/Stand_Alone_Engine/Poppy_Universe_Engine/Layer1_Star_Engine.cs:138 | the rounded, capped percentage never passes 100 and is not negative for a non-negative score |
| Layer1.RankedStatesSpec | POPPY_Universe/Recommendation_Engine/Stand_Alone_Engine/Poppy_Universe_Engine/Layer1_Star_Engine.cs:146 | `OrderByDescending(Score)` is a rearrangement of the cards, highest score first |
| Layer1.StatesOfPick | POPPY_Universe/Recommendation_Engine/Stand_Alone_Engine/Poppy_Universe_Engine/Layer1_Star_Engine.cs:86-146 | the picked views carry the picked cards' states, in the pick's order |
| Layer1.PickDistinctCards | POPPY_Universe/Recommendation_Engine/Stand_Alone_Engine/Poppy_Universe_Engine/Layer1_Star_Engine.cs:86 | picking increasing positions out of distinct cards gives distinct cards |
| StarEngine.RawScore | POPPY_Universe/Recommendation_Engine/Stand_Alone_Engine/Poppy_Universe_Engine/Layer1_Star_Engine.cs:106-134 | with a non-negative power and draw the raw score is non-negative |
| StarEngine.ScoreComponents | POPPY_Universe/Recommendation_Engine/Stand_Alone_Engine/Poppy_Universe_Engine/Layer1_Star_Engine.cs:111-126 | 5 for a liked star, 5 for a favourite spectral type, 2 for both together, a nudge in `[0, 0.5)`, no brightness at magnitude 5 or fainter |
| StarEngine.BrighterScoresHigher | POPPY_Universe/Recommendation_Engine/Stand_Alone_Engine/Poppy_Universe_Engine/Layer1_Star_Engine.cs:120-134 | a brighter star never scores lower than a fainter one with the same name, type and draw |
| StarEngine.LikeLifts | POPPY_Universe/Recommendation_Engine/Stand_Alone_Engine/Poppy_Universe_Engine/Layer1_Star_Engine.cs:111-134 | liking a star of a favourite type lifts it by exactly 4.5 |
| StarEngine.Visibility | POPPY_Universe/Recommendation_Engine/Stand_Alone_Engine/Poppy_Universe_Engine/Layer1_Star_Engine.cs:52 | one visibility flag per star |
| StarEngine.VisibleStarsSpec | POPPY_Universe/Recommendation_Engine/Stand_Alone_Engine/Poppy_Universe_Engine/Layer1_Star_Engine.cs:52-86 | exactly the stars at or above the minimum altitude are kept |
| StarEngine.ScoredStates | POPPY_Universe/Recommendation_Engine/Stand_Alone_Engine/Poppy_Universe_Engine/Layer1_Star_Engine.cs:104-143 | one card per visible star |
| StarEngine.RecommendedStarsSpec | POPPY_Universe/Recommendation_Engine/Stand_Alone_Engine/Poppy_Universe_Engine/Layer1_Star_Engine.cs:104-146 | the returned cards are the scored cards rearranged, highest score first, each with a percentage in `[0, 100]`, a non-negative score and the one weather chance and reason of the call |
| StarEngine.StarsOf | POPPY_Universe/Recommendation_Engine/Stand_Alone_Engine/Poppy_Universe_Engine/Layer1_Star_Engine.cs:104 | the star behind each view |
| StarEngine.Engine.constructor | POPPY_Universe/Recommendation_Engine/Stand_Alone_Engine/Poppy_Universe_Engine/Layer1_Star_Engine.cs:25-32 | the engine keeps the user and the minimum altitude |
| StarEngine.Engine.GetStarViews | POPPY_Universe/Recommendation_Engine/Stand_Alone_Engine/Poppy_Universe_Engine/Layer1_Star_Engine.cs:41-72 | one fresh, unscored view per star, in order, with its altitude, azimuth and visibility |
| StarEngine.Engine.ScoreStar | POPPY_Universe/Recommendation_Engine/Stand_Alone_Engine/Poppy_Universe_Engine/Layer1_Star_Engine.cs:106-142 | one draw, and the star's card holds its rated raw score and the weather verdict |
| StarEngine.Engine.ScoreVisible | POPPY_Universe/Recommendation_Engine/Stand_Alone_Engine/Poppy_Universe_Engine/Layer1_Star_Engine.cs:104-143 | one draw per visible star, visible star `k` taking draw `k`, and every card holds `ScoredStates` |
| StarEngine.Engine.GetRecommendedStars | POPPY_Universe/Recommendation_Engine/Stand_Alone_Engine/Poppy_Universe_Engine/Layer1_Star_Engine.cs:82-147 | the visible stars' views, scored in place, in `OrderByDescending(Score)` order |
| HeadroomStarEngine.ScoreComponents | POPPY_Universe/Recommendation_Engine/Poppy_Universe_Engine/Layer1_Star_Engine.cs:100-141 | 5 for a liked star and 3 otherwise; colour in `[0, 2]`, reaching 2 exactly at colour index 1.2; temperature in `[0, 2.5]`, reaching 2.5 exactly at 5500 K; distance at most 3 and below 3 for a known distance; a nudge in `[0, 0.5)` |
| HeadroomStarEngine.Best | POPPY_Universe/Recommendation_Engine/Poppy_Universe_Engine/Layer1_Star_Engine.cs:160 | `Max(s => s.Score)` is one of the scores and no score exceeds it |
| HeadroomStarEngine.HeadroomScale | POPPY_Universe/Recommendation_Engine/Poppy_Universe_Engine/Layer1_Star_Engine.cs:161-166 | dividing by the best score times 1.1 is dividing by the best score, then by 1.1 |
| HeadroomStarEngine.HeadroomBounds | POPPY_Universe/Recommendation_Engine/Poppy_Universe_Engine/Layer1_Star_Engine.cs:159-169 | with a positive best score, the best star gets 90.91%, no star at or below the best gets more, and a non-negative score gets a non-negative percentage |
| HeadroomStarEngine.HeadroomStatesSpec | POPPY_Universe/Recommendation_Engine/Poppy_Universe_Engine/Layer1_Star_Engine.cs:159-177 | the returned list is highest score first, starts with the best star at 90.91%, no star shows more, and every star carries the one weather chance and reason of the call |
| HeadroomStarEngine.TwoPasses | POPPY_Universe/Recommendation_Engine/Poppy_Universe_Engine/Layer1_Star_Engine.cs:96-174 | the second loop over the cards the first loop left gives exactly the cards `HeadroomStates` describes |
| HeadroomStarEngine.Engine.constructor | POPPY_Universe/Recommendation_Engine/Poppy_Universe_Engine/Layer1_Star_Engine.cs:25-32 | the engine keeps the user and the minimum altitude |
| HeadroomStarEngine.Engine.GetStarViews | POPPY_Universe/Recommendation_Engine/Poppy_Universe_Engine/Layer1_Star_Engine.cs:41-72 | one fresh, unscored view per star, in order, visible exactly when its altitude reaches the minimum |
| HeadroomStarEngine.Engine.Components | POPPY_Universe/Recommendation_Engine/Poppy_Universe_Engine/Layer1_Star_Engine.cs:100-138 | the six components the loop body computes are the component functions of the star |
| HeadroomStarEngine.Engine.ScoreStar | POPPY_Universe/Recommendation_Engine/Poppy_Universe_Engine/Layer1_Star_Engine.cs:96-157 | one draw, and the card holds the star's first-pass score |
| HeadroomStarEngine.Engine.ScoreVisible | POPPY_Universe/Recommendation_Engine/Poppy_Universe_Engine/Layer1_Star_Engine.cs:96-157 | one draw per visible star, and every card holds its first-pass score and nothing else |
| HeadroomStarEngine.Engine.NormalizeCard | POPPY_Universe/Recommendation_Engine/Poppy_Universe_Engine/Layer1_Star_Engine.cs:163-174 | the card gets its headroom percentage against the best score and the rounded weather verdict; its score is kept |
| HeadroomStarEngine.Engine.Normalize | POPPY_Universe/Recommendation_Engine/Poppy_Universe_Engine/Layer1_Star_Engine.cs:163-174 | every card is normalised against the one best score and nothing else changes |
| HeadroomStarEngine.Engine.RateVisible | POPPY_Universe/Recommendation_Engine/Poppy_Universe_Engine/Layer1_Star_Engine.cs:96-174 | after both loops the cards hold `HeadroomStates` of the first-pass scores |
| HeadroomStarEngine.Engine.VisibleViews | POPPY_Universe/Recommendation_Engine/Poppy_Universe_Engine/Layer1_Star_Engine.cs:85-86 | exactly the stars at or above the minimum altitude are kept, in order, on distinct fresh cards |
| HeadroomStarEngine.Engine.RankByScore | POPPY_Universe/Recommendation_Engine/Poppy_Universe_Engine/Layer1_Star_Engine.cs:177 | the views rearranged by `OrderByDescending(Score)`, each still showing its star |
| HeadroomStarEngine.Engine.GetRecommendedStars | POPPY_Universe/Recommendation_Engine/Poppy_Universe_Engine/Layer1_Star_Engine.cs:82-178 | with no visible star `Max` throws; otherwise the visible stars' views, scored and normalised with headroom, highest score first |
| PlanetEngine.LookupKnows | POPPY_Universe/Recommendation_Engine/Stand_Alone_Engine/Poppy_Universe_Engine/Planetary_Position_Service.cs:261-267 | the position service answers for a name exactly when its lower-case form is a body of the table |
| PlanetEngine.SightingFrom | POPPY_Universe/Recommendation_Engine/Stand_Alone_Engine/Poppy_Universe_Engine/Layer1_Planet_Engine.cs:52-100 | at most one sighting: none when the position service threw for the planet |
| PlanetEngine.SightingOf | POPPY_Universe/Recommendation_Engine/Stand_Alone_Engine/Poppy_Universe_Engine/Layer1_Planet_Engine.cs:52-100 | at most one sighting per planet |
| PlanetEngine.Sightings | POPPY_Universe/Recommendation_Engine/Stand_Alone_Engine/Poppy_Universe_Engine/Layer1_Planet_Engine.cs:50-101 | no more sightings than catalogue planets |
| PlanetEngine.SightingsStep | POPPY_Universe/Recommendation_Engine/Stand_Alone_Engine/Poppy_Universe_Engine/Layer1_Planet_Engine.cs:50-101 | one more catalogue planet appends its own sighting, if any |
| PlanetEngine.SightingsSpec | POPPY_Universe/Recommendation_Engine/Stand_Alone_Engine/Poppy_Universe_Engine/Layer1_Planet_Engine.cs:50-101 | every sighting is of a catalogue planet the table knows, every such planet is sighted, and with every name known none is skipped |
| PlanetEngine.EarthAtOrigin | POPPY_Universe/Recommendation_Engine/Stand_Alone_Engine/Poppy_Universe_Engine/Layer1_Planet_Engine.cs:48-61 | Earth, under any spelling, is seen at the geocentric origin |
| PlanetEngine.MagnitudeScoreConstant | POPPY_Universe/Recommendation_Engine/Stand_Alone_Engine/Poppy_Universe_Engine/Layer1_Planet_Engine.cs:161-168 | with a view's magnitude and distances never assigned, every planet gets the capped magnitude score `Math.Pow(5, 1.2)` |
| PlanetEngine.ScoreComponents | POPPY_Universe/Recommendation_Engine/Stand_Alone_Engine/Poppy_Universe_Engine/Layer1_Planet_Engine.cs:146-174 | 3 for a like, 2 for rings, 3 exactly for a temperature strictly between -50 and 60, a synergy of 2 exactly for a liked comfortable planet, a distance term in `(0, 2]`, a magnitude term in `[0, Math.Pow(5, 1.2)]`, a nudge in `[0, 0.5)` |
| PlanetEngine.LikeLifts | POPPY_Universe/Recommendation_Engine/Stand_Alone_Engine/Poppy_Universe_Engine/Layer1_Planet_Engine.cs:146-185 | liking a comfortable planet lifts its score by exactly 3.5 |
| PlanetEngine.VisibleSightingsSpec | POPPY_Universe/Recommendation_Engine/Stand_Alone_Engine/Poppy_Universe_Engine/Layer1_Planet_Engine.cs:74-118 | exactly the sightings at or above the minimum altitude are kept |
| PlanetEngine.PlanetsOf | POPPY_Universe/Recommendation_Engine/Stand_Alone_Engine/Poppy_Universe_Engine/Layer1_Planet_Engine.cs:139 | the planet behind each sighting |
| PlanetEngine.ViewedPlanets | POPPY_Universe/Recommendation_Engine/Stand_Alone_Engine/Poppy_Universe_Engine/Layer1_Planet_Engine.cs:139 | the planet behind each view |
| PlanetEngine.ScoredStates | POPPY_Universe/Recommendation_Engine/Stand_Alone_Engine/Poppy_Universe_Engine/Layer1_Planet_Engine.cs:139-194 | one card per visible planet |
| PlanetEngine.RecommendedPlanetsSpec | POPPY_Universe/Recommendation_Engine/Stand_Alone_Engine/Poppy_Universe_Engine/Layer1_Planet_Engine.cs:125-197 | the returned cards are the scored cards rearranged, highest score first, each with a percentage in `[0, 100]`, a non-negative score and the one weather chance and reason of the call |
| PlanetEngine.Engine.constructor | POPPY_Universe/Recommendation_Engine/Stand_Alone_Engine/Poppy_Universe_Engine/Layer1_Planet_Engine.cs:26-33 | the engine keeps the user and the minimum altitude |
| PlanetEngine.Engine.GetPlanetViews | POPPY_Universe/Recommendation_Engine/Stand_Alone_Engine/Poppy_Universe_Engine/Layer1_Planet_Engine.cs:42-104 | one fresh, unscored view per sighting, in catalogue order, carrying its geocentric position, right ascension, declination, altitude, azimuth and visibility |
| PlanetEngine.Engine.AddView | POPPY_Universe/Recommendation_Engine/Stand_Alone_Engine/Poppy_Universe_Engine/Layer1_Planet_Engine.cs:52-100 | the loop body adds the planet's view, or nothing when the position service threw |
| PlanetEngine.Engine.ScorePlanet | POPPY_Universe/Recommendation_Engine/Stand_Alone_Engine/Poppy_Universe_Engine/Layer1_Planet_Engine.cs:141-193 | one draw, and the card holds the planet's rated score against the maximum 10.2 and the weather verdict |
| PlanetEngine.Engine.ScoreVisible | POPPY_Universe/Recommendation_Engine/Stand_Alone_Engine/Poppy_Universe_Engine/Layer1_Planet_Engine.cs:139-194 | one draw per visible planet, and every card holds `ScoredStates` |
| PlanetEngine.Engine.VisiblePlanetViews | POPPY_Universe/Recommendation_Engine/Stand_Alone_Engine/Poppy_Universe_Engine/Layer1_Planet_Engine.cs:117-118 | exactly the visible sightings' views, in order, on distinct fresh cards |
| PlanetEngine.Engine.RankByScore | POPPY_Universe/Recommendation_Engine/Stand_Alone_Engine/Poppy_Universe_Engine/Layer1_Planet_Engine.cs:197 | the views rearranged by `OrderByDescending(Score)`, each still showing its sighting |
| PlanetEngine.Engine.GetRecommendedPlanets | POPPY_Universe/Recommendation_Engine/Stand_Alone_Engine/Poppy_Universe_Engine/Layer1_Planet_Engine.cs:114-198 | the visible planets' views, scored in place, highest score first |
| MoonEngine.ParentIndex | POPPY_Universe/Recommendation_Engine/Stand_Alone_Engine/Poppy_Universe_Engine/Layer1_Moon_Engine.cs:45-46 | a found parent is a position in the planet list |
| MoonEngine.ParentIndexSpec | POPPY_Universe/Recommendation_Engine/Stand_Alone_Engine/Poppy_Universe_Engine/Layer1_Moon_Engine.cs:45-52 | the parent found is the first planet view whose name matches the moon's parent in any case, and none is found exactly when no name matches |
| MoonEngine.MeanMotionSpec | POPPY_Universe/Recommendation_Engine/Stand_Alone_Engine/Poppy_Universe_Engine/Layer1_Moon_Engine.cs:108-125 | a positive mean motion is converted from degrees to radians per day; otherwise a positive period gives one revolution per period; otherwise the estimated period's square grows as the cube of the semi-major axis, 27.3 days at 384400 km |
| MoonEngine.RemainderTurnSpec | POPPY_Universe/Recommendation_Engine/Stand_Alone_Engine/Poppy_Universe_Engine/Layer1_Moon_Engine.cs:129 | C#'s `% (2 * Math.PI)`: a remainder carrying the sign of the dividend, smaller than a revolution, whole revolutions from the dividend |
| MoonEngine.NormalizeRadiansSpec | POPPY_Universe/Recommendation_Engine/Stand_Alone_Engine/Poppy_Universe_Engine/Layer1_Moon_Engine.cs:129-130 | the angle lands in `[0, 2 PI)`, whole revolutions from the input, and an angle already there is unchanged |
| MoonEngine.MeanAnomalySpec | POPPY_Universe/Recommendation_Engine/Stand_Alone_Engine/Poppy_Universe_Engine/Layer1_Moon_Engine.cs:96-130 | the current mean anomaly lies in `[0, 2 PI)`, whole revolutions from `M0 + n * (jd - 2451545)` |
| MoonEngine.EpochMeanAnomaly | POPPY_Universe/Recommendation_Engine/Stand_Alone_Engine/Poppy_Universe_Engine/Layer1_Moon_Engine.cs:97-130 | at J2000 the mean anomaly is the catalogue's mean anomaly at epoch in radians |
| MoonEngine.CircularOrbit | POPPY_Universe/Recommendation_Engine/Stand_Alone_Engine/Poppy_Universe_Engine/Layer1_Moon_Engine.cs:197-214 | on a circular orbit the eccentric anomaly is the mean anomaly |
| MoonEngine.MoonSightingOf | POPPY_Universe/Recommendation_Engine/Stand_Alone_Engine/Poppy_Universe_Engine/Layer1_Moon_Engine.cs:42-81 | at most one sighting per moon |
| MoonEngine.SightingFrom | POPPY_Universe/Recommendation_Engine/Stand_Alone_Engine/Poppy_Universe_Engine/Layer1_Moon_Engine.cs:48-81 | no sighting when the parent was not found, else one |
| MoonEngine.MoonSightings | POPPY_Universe/Recommendation_Engine/Stand_Alone_Engine/Poppy_Universe_Engine/Layer1_Moon_Engine.cs:42-82 | no more sightings than catalogue moons |
| MoonEngine.MoonSightingsStep | POPPY_Universe/Recommendation_Engine/Stand_Alone_Engine/Poppy_Universe_Engine/Layer1_Moon_Engine.cs:42-82 | one more catalogue moon appends its own sighting, if any |
| MoonEngine.MoonSightingsSound | POPPY_Universe/Recommendation_Engine/Stand_Alone_Engine/Poppy_Universe_Engine/Layer1_Moon_Engine.cs:42-82 | every sighting is of a catalogue moon with a listed parent, placed against the first matching planet view, and visible exactly when high enough with its parent visible |
| MoonEngine.MoonSightingsComplete | POPPY_Universe/Recommendation_Engine/Stand_Alone_Engine/Poppy_Universe_Engine/Layer1_Moon_Engine.cs:42-82 | every moon with a listed parent is sighted, and with all parents listed none is skipped |
| MoonEngine.NoVisibleParentNoMoon | POPPY_Universe/Recommendation_Engine/Stand_Alone_Engine/Poppy_Universe_Engine/Layer1_Moon_Engine.cs:65 | with no visible planet handed in, no moon is visible |
| MoonEngine.ScoreComponents | POPPY_Universe/Recommendation_Engine/Stand_Alone_Engine/Poppy_Universe_Engine/Layer1_Moon_Engine.cs:267-326 | the distance term in `[0, 3]`, the magnitude term in `[0, 2]`, a nudge in `[0, 0.3)`, and the score without the nudge between 0 and the maximum 5.5, which a liked, described moon of a liked parent reaches at both caps |
| MoonEngine.CloserScoresHigher | POPPY_Universe/Recommendation_Engine/Stand_Alone_Engine/Poppy_Universe_Engine/Layer1_Moon_Engine.cs:297-302 | a closer moon never scores lower on distance |
| MoonEngine.BrighterScoresHigher | POPPY_Universe/Recommendation_Engine/Stand_Alone_Engine/Poppy_Universe_Engine/Layer1_Moon_Engine.cs:305-310 | a brighter moon, magnitudes in `(0, 20]`, never scores lower on magnitude |
| MoonEngine.LikeLifts | POPPY_Universe/Recommendation_Engine/Stand_Alone_Engine/Poppy_Universe_Engine/Layer1_Moon_Engine.cs:287-326 | liking both a moon and its parent lifts its score by exactly 2.3 |
| MoonEngine.VisibleMoonSightingsSpec | POPPY_Universe/Recommendation_Engine/Stand_Alone_Engine/Poppy_Universe_Engine/Layer1_Moon_Engine.cs:258 | exactly the visible sightings are kept |
| MoonEngine.MoonsOf | POPPY_Universe/Recommendation_Engine/Stand_Alone_Engine/Poppy_Universe_Engine/Layer1_Moon_Engine.cs:280 | the moon behind each sighting |
| MoonEngine.ViewedMoons | POPPY_Universe/Recommendation_Engine/Stand_Alone_Engine/Poppy_Universe_Engine/Layer1_Moon_Engine.cs:280 | the moon behind each view |
| MoonEngine.ScoredStates | POPPY_Universe/Recommendation_Engine/Stand_Alone_Engine/Poppy_Universe_Engine/Layer1_Moon_Engine.cs:280-335 | one card per visible moon |
| MoonEngine.RecommendedMoonsSpec | POPPY_Universe/Recommendation_Engine/Stand_Alone_Engine/Poppy_Universe_Engine/Layer1_Moon_Engine.cs:267-338 | the returned cards are the scored cards rearranged, highest score first, each with a percentage in `[0, 100]`, a non-negative score and the one weather chance and reason of the call |
| MoonEngine.Engine.constructor | POPPY_Universe/Recommendation_Engine/Stand_Alone_Engine/Poppy_Universe_Engine/Layer1_Moon_Engine.cs:22-29 | the engine keeps the user and the minimum altitude |
| MoonEngine.Engine.CalculateMoonPosition | POPPY_Universe/Recommendation_Engine/Stand_Alone_Engine/Poppy_Universe_Engine/Layer1_Moon_Engine.cs:93-187 | the right ascension and declination of the parent's position plus the moon's offset at the solved eccentric anomaly |
| MoonEngine.Engine.GetMoonViews | POPPY_Universe/Recommendation_Engine/Stand_Alone_Engine/Poppy_Universe_Engine/Layer1_Moon_Engine.cs:38-85 | one fresh, unscored view per sighting, in catalogue order |
| MoonEngine.Engine.AddView | POPPY_Universe/Recommendation_Engine/Stand_Alone_Engine/Poppy_Universe_Engine/Layer1_Moon_Engine.cs:45-81 | the loop body adds the moon's view, or nothing when its parent is not listed |
| MoonEngine.Engine.ScoreMoon | POPPY_Universe/Recommendation_Engine/Stand_Alone_Engine/Poppy_Universe_Engine/Layer1_Moon_Engine.cs:282-334 | one draw, and the card holds the moon's rated score against the maximum 5.5 and the weather verdict |
| MoonEngine.Engine.ScoreVisible | POPPY_Universe/Recommendation_Engine/Stand_Alone_Engine/Poppy_Universe_Engine/Layer1_Moon_Engine.cs:280-335 | one draw per visible moon, and every card holds `ScoredStates` |
| MoonEngine.Engine.VisibleMoonViews | POPPY_Universe/Recommendation_Engine/Stand_Alone_Engine/Poppy_Universe_Engine/Layer1_Moon_Engine.cs:256-258 | exactly the visible sightings' views, in order, on distinct fresh cards |
| MoonEngine.Engine.RankByScore | POPPY_Universe/Recommendation_Engine/Stand_Alone_Engine/Poppy_Universe_Engine/Layer1_Moon_Engine.cs:338 | the views rearranged by `OrderByDescending(Score)`, each still showing its sighting |
| MoonEngine.Engine.GetRecommendedMoons | POPPY_Universe/Recommendation_Engine/Stand_Alone_Engine/Poppy_Universe_Engine/Layer1_Moon_Engine.cs:253-339 | the visible moons' views, scored in place, highest score first |
| Ephemeris.GetPlanetElementsSpec | POPPY_Universe/Recommendation_Engine/Stand_Alone_Engine/Poppy_Universe_Engine/Planetary_Position_Service.cs:31-252 | a name is accepted exactly when its lower-case form is one of the thirteen bodies; any other raises `ArgumentException("Unknown planet or dwarf planet: " + name)` |
| Ephemeris.ElementsIgnoreCase | POPPY_Universe/Recommendation_Engine/Stand_Alone_Engine/Poppy_Universe_Engine/Planetary_Position_Service.cs:34 | two names differing only in case get the same answer |
| Ephemeris.ThirteenBodies | POPPY_Universe/Recommendation_Engine/Stand_Alone_Engine/Poppy_Universe_Engine/Planetary_Position_Service.cs:37-248 | the table holds thirteen distinct names |
| Ephemeris.EarthIsKnown | POPPY_Universe/Recommendation_Engine/Stand_Alone_Engine/Poppy_Universe_Engine/Planetary_Position_Service.cs:69-84 | "earth" is in the table |
| Ephemeris.SunIsUnknown | POPPY_Universe/Recommendation_Engine/Stand_Alone_Engine/Poppy_Universe_Engine/Planetary_Position_Service.cs:250-251 | "Sun" raises the table's exception naming it |
| Ephemeris.DwarfPlanetRates | POPPY_Universe/Recommendation_Engine/Stand_Alone_Engine/Poppy_Universe_Engine/Planetary_Position_Service.cs:169-248 | the dwarf planets move only in mean longitude, at a positive rate |
| Ephemeris.DwarfNamesLower | POPPY_Universe/Recommendation_Engine/Stand_Alone_Engine/Poppy_Universe_Engine/Planetary_Position_Service.cs:169-233 | the dwarf-planet case labels are already lower case |
| Ephemeris.ToJulianDate | POPPY_Universe/Recommendation_Engine/Stand_Alone_Engine/Poppy_Universe_Engine/Planetary_Position_Service.cs:365-386 | the Julian Date of the calendar time |
| Ephemeris.J2000Epoch | POPPY_Universe/Recommendation_Engine/Stand_Alone_Engine/Poppy_Universe_Engine/Planetary_Position_Service.cs:365-386 | 2000-01-01 12:00 UTC is Julian Date 2451545.0 |
| Ephemeris.NextDay | POPPY_Universe/Recommendation_Engine/Stand_Alone_Engine/Poppy_Universe_Engine/Planetary_Position_Service.cs:369-383 | the next day of a month is one Julian day later |
| Ephemeris.CenturyLeapYears | POPPY_Universe/Recommendation_Engine/Stand_Alone_Engine/Poppy_Universe_Engine/Planetary_Position_Service.cs:372-383 | the Gregorian correction makes 2000 a leap year and 1900 a common year |
| Ephemeris.Centuries | POPPY_Universe/Recommendation_Engine/Stand_Alone_Engine/Poppy_Universe_Engine/Planetary_Position_Service.cs:265 | zero at J2000, positive after and negative before |
| Ephemeris.PropagateAtEpoch | POPPY_Universe/Recommendation_Engine/Stand_Alone_Engine/Poppy_Universe_Engine/Planetary_Position_Service.cs:270-280 | at J2000 an element is its tabulated value, a zero rate never changes it, and the change is rate times centuries |
| Ephemeris.Remainder360 | POPPY_Universe/Recommendation_Engine/Stand_Alone_Engine/Poppy_Universe_Engine/Planetary_Position_Service.cs:274-280 | C#'s `% 360.0`: a remainder carrying the sign of the dividend, below 360 in magnitude, whole turns from the dividend |
| Ephemeris.WholeTurnsOf | POPPY_Universe/Recommendation_Engine/Stand_Alone_Engine/Poppy_Universe_Engine/Planetary_Position_Service.cs:274 | a whole number times 360 is whole turns |
| Ephemeris.WholeTurnsAddTurn | POPPY_Universe/Recommendation_Engine/Stand_Alone_Engine/Poppy_Universe_Engine/Planetary_Position_Service.cs:275 | taking off one more turn keeps whole turns |
| Ephemeris.NormalizeAngle | POPPY_Universe/Recommendation_Engine/Stand_Alone_Engine/Poppy_Universe_Engine/Planetary_Position_Service.cs:274-281 | the angle lands in `[0, 360)`, whole turns from the input, and an angle already there is unchanged |
| Ephemeris.ElementsAtSpec | POPPY_Universe/Recommendation_Engine/Stand_Alone_Engine/Poppy_Universe_Engine/Planetary_Position_Service.cs:270-286 | the normalised angles and the mean anomaly lie in `[0, 360)`, the argument of perihelion in `(-360, 360)`, and the semi-major axis and eccentricity are the propagated ones |
| Ephemeris.HeliocentricElementsSpec | POPPY_Universe/Recommendation_Engine/Stand_Alone_Engine/Poppy_Universe_Engine/Planetary_Position_Service.cs:261-286 | the position service knows exactly the table's names, throws the table's exception otherwise, and works from the table's elements propagated to the time |
| Ephemeris.StepsFrom | POPPY_Universe/Recommendation_Engine/Stand_Alone_Engine/Poppy_Universe_Engine/Planetary_Position_Service.cs:326-332 | the number of Newton steps is more than those already taken and at most 30 |
| Ephemeris.StepsFromSpec | POPPY_Universe/Recommendation_Engine/Stand_Alone_Engine/Poppy_Universe_Engine/Planetary_Position_Service.cs:326-332 | no step before the last had a correction within the tolerance, and the last one did unless it was the 30th |
| Ephemeris.FirstStepConverges | POPPY_Universe/Recommendation_Engine/Stand_Alone_Engine/Poppy_Universe_Engine/Planetary_Position_Service.cs:325-331 | a first correction within the tolerance ends the iteration after one step |
| Ephemeris.SolveKeplerEquation | POPPY_Universe/Recommendation_Engine/Stand_Alone_Engine/Poppy_Universe_Engine/Planetary_Position_Service.cs:323-334 | between 1 and 30 Newton steps from `M`; no step before the last was within the tolerance, and stopping early means the last one was |
| EngineController.DigitRun | POPPY_Universe/Web/Backend/Controllers/Engine_Controller.js:315 | the run of digits `[0-9]+` at a position: all digits, stopping at a non-digit or the end |
| EngineController.GroupAt | POPPY_Universe/Web/Backend/Controllers/Engine_Controller.js:315 | a match of `([0-9]*\.[0-9]+\|[0-9]+)` is non-empty and stays within the text |
| EngineController.MatchAt | POPPY_Universe/Web/Backend/Controllers/Engine_Controller.js:315 | a match of the whole pattern, optional sign included, is non-empty and stays within the text |
| EngineController.FirstMatch | POPPY_Universe/Web/Backend/Controllers/Engine_Controller.js:315 | `String.match` finds the leftmost match: nothing matches before it, and none is found exactly when nothing matches anywhere |
| EngineController.MatchIffDigit | POPPY_Universe/Web/Backend/Controllers/Engine_Controller.js:315-316 | the pattern matches exactly when the text holds a digit |
| EngineController.GroupHasDigit | POPPY_Universe/Web/Backend/Controllers/Engine_Controller.js:315 | whatever the number group matches holds a digit |
| EngineController.NoNumberIsZero | POPPY_Universe/Web/Backend/Controllers/Engine_Controller.js:313-317 | a missing or empty value, or a text without a digit, reads as 0 |
| EngineController.RunIs | POPPY_Universe/Web/Backend/Controllers/Engine_Controller.js:315 | `k` digits followed by a non-digit or the end are a run of exactly `k` |
| EngineController.WholeGroup | POPPY_Universe/Web/Backend/Controllers/Engine_Controller.js:315-316 | a run of digits not followed by a digit or a point is matched whole and parses as its integer |
| EngineController.FractionGroup | POPPY_Universe/Web/Backend/Controllers/Engine_Controller.js:315-316 | digits, a point and digits match as one number: the whole part plus the fraction |
| EngineController.DecimalGroup | POPPY_Universe/Web/Backend/Controllers/Engine_Controller.js:315-316 | a decimal text matches whole and parses as its value |
| EngineController.NoMatchBefore | POPPY_Universe/Web/Backend/Controllers/Engine_Controller.js:315 | no match starts among plain characters |
| EngineController.FirstMatchIs | POPPY_Universe/Web/Backend/Controllers/Engine_Controller.js:315 | a match with no match before it is the one `String.match` returns |
| EngineController.ReadsDecimal | POPPY_Universe/Web/Backend/Controllers/Engine_Controller.js:313-317 | a decimal text after plain characters and not followed by a digit or point reads as its value |
| EngineController.ReadsSignedDecimal | POPPY_Universe/Web/Backend/Controllers/Engine_Controller.js:313-317 | a decimal text after a leading `+` reads as its value |
| EngineController.PercentExample | POPPY_Universe/Web/Backend/Controllers/Engine_Controller.js:312-317 | "2.5%" reads as 2.5 |
| EngineController.LabelExample | POPPY_Universe/Web/Backend/Controllers/Engine_Controller.js:312-317 | "Boosted: 10" reads as 10 |
| EngineController.PlainLabel | POPPY_Universe/Web/Backend/Controllers/Engine_Controller.js:315 | "Boosted: " cannot start a match |
| EngineController.NegativeExample | POPPY_Universe/Web/Backend/Controllers/Engine_Controller.js:313-317 | "-3 left" reads as -3, the sign included |
| EngineController.WholeNumberText | POPPY_Universe/Web/Backend/Controllers/Engine_Controller.js:316 | the decimal text of a natural number parses back to it |
| EngineController.BoostedByAmount | POPPY_Universe/Web/Backend/Controllers/Engine_Controller.js:337 | the boost amount shown for a "Boosted by X%" description is `X`, and 0 for "No boost" |
| EngineController.PlainBoostedBy | POPPY_Universe/Web/Backend/Controllers/Engine_Controller.js:315 | "Boosted by " cannot start a match |
| EngineController.NoBoostPlain | POPPY_Universe/Web/Backend/Controllers/Engine_Controller.js:315 | "No boost" holds no digit |
| EngineController.NNBoostedByAmount | POPPY_Universe/Web/Backend/Controllers/Engine_Controller.js:337 | the boost amount shown for an "NN Boosted by X%" description is `X`, and 0 for "No NN boost" |
| EngineController.PlainNNBoostedBy | POPPY_Universe/Web/Backend/Controllers/Engine_Controller.js:315 | "NN Boosted by " cannot start a match |
| EngineController.NoNNBoostPlain | POPPY_Universe/Web/Backend/Controllers/Engine_Controller.js:315 | "No NN boost" holds no digit |
| EngineController.PersonalizedAmount | POPPY_Universe/Web/Backend/Controllers/Engine_Controller.js:337 | the boost amount shown for a cloud Layer 3 description is the rise rounded to one decimal, or 0 |
| EngineController.HaloAmount | POPPY_Universe/Web/Backend/Controllers/Engine_Controller.js:337 | the boost amount shown for a cloud Layer 2 description is the rise rounded to cents above 0.01, else 0 |
| EngineController.MapResult | POPPY_Universe/Web/Backend/Controllers/Engine_Controller.js:323-341 | a Layer 5 record shows its own id, name, final score, summary, rank plus one and no boost; any other shows its nested object's id and name, its score, "Standard Ranking", no rank and the parsed boost; the shared columns are copied |
| EngineController.MapStarResult | POPPY_Universe/Web/Backend/Controllers/Engine_Controller.js:323-341 | the spectral type comes from the record for Layer 5 and from the nested star otherwise |
| EngineController.MapPlanetResult | POPPY_Universe/Web/Backend/Controllers/Engine_Controller.js:343-360 | the planet type comes from the record for Layer 5 and from the nested planet otherwise |
| EngineController.MapMoonResult | POPPY_Universe/Web/Backend/Controllers/Engine_Controller.js:362-379 | the parent planet comes from the record in both cases |
| EngineController.FusedRanksFromOne | POPPY_Universe/Web/Backend/Controllers/Engine_Controller.js:335 | Layer 5 ranks 0..n-1 are shown as 1..n, in order, with no boost amount |
| EngineController.BoostedViewRow | POPPY_Universe/Web/Backend/Controllers/Engine_Controller.js:335-337 | a boosted Layer 1-4 view shows the booster's percentage and no GA rank |
| CloudEndpoint.NoLists | POPPY_Universe/Recommendation_Engine/Poppy_Universe_Engine/Program.cs:79-81 | a skipped layer's three lists are empty |
| CloudEndpoint.Step | POPPY_Universe/Recommendation_Engine/Poppy_Universe_Engine/Program.cs:79-95 | a layer that runs is its booster on the Layer 1 lists and the views as the previous layer left them; one that does not gives empty lists and leaves the views as they were |
| CloudEndpoint.RunEngine | POPPY_Universe/Recommendation_Engine/Poppy_Universe_Engine/Program.cs:31-168 | the response is `Respond`: a blank body is a bad request; otherwise the first exception in the order the handler meets it becomes a problem; otherwise Layer 5's objects, or the lists of the last of Layers 4, 3 and 2 that ran (otherwise Layer 1's), each running layer having worked on the view objects as the one before it left them |
| CloudEndpoint.MissingConfigIsProblem | POPPY_Universe/Recommendation_Engine/Poppy_Universe_Engine/Program.cs:83-167 | a payload without a config gets past Layers 2 and 3 and fails with a null reference at Layer 4 |
| CloudEndpoint.SkippedLayersIgnored | POPPY_Universe/Recommendation_Engine/Poppy_Universe_Engine/Program.cs:83-133 | what the booster of a layer that does not run would have done cannot change the response |
| CloudEndpoint.Layer1Only | POPPY_Universe/Recommendation_Engine/Poppy_Universe_Engine/Program.cs:74-161 | with every optional layer off, the Layer 1 lists are returned with the views as Layer 1 left them |
| CloudEndpoint.LastLayerWins | POPPY_Universe/Recommendation_Engine/Poppy_Universe_Engine/Program.cs:87-161 | with Layers 2-4 all running, Layer 4's lists are returned, and the views they carry are Layer 4's boost of Layer 3's boost of Layer 2's boost of the Layer 1 views |
| CloudEndpoint.LayersChain | POPPY_Universe/Recommendation_Engine/Poppy_Universe_Engine/Program.cs:87-161 | with Layers 2 and 3 running and Layer 4 off, the response is Layer 3's boost applied to the views Layer 2 left, not to Layer 1's |
| CloudEndpoint.FusionInputs | POPPY_Universe/Recommendation_Engine/Poppy_Universe_Engine/Program.cs:136-157 | with Layer 5 on, the fusion gets the Layer 1 lists, each other layer's lists or empty lists, and the views as the last running layer left them; the response is its outcome |
| CloudEndpoint.BoolRead | POPPY_Universe/Recommendation_Engine/Poppy_Universe_Engine/Program.cs:216-221 | a read fails exactly for null, a structure, or a number that is not an `Int32` literal, with the exception kind `GetInt32` or `GetBoolean` throws |
| CloudEndpoint.BoolWrite | POPPY_Universe/Recommendation_Engine/Poppy_Universe_Engine/Program.cs:222 | a boolean is written as a JSON boolean |
| CloudEndpoint.BoolRoundTrip | POPPY_Universe/Recommendation_Engine/Poppy_Universe_Engine/Program.cs:216-222 | reading back a written boolean gives it back |
| CloudEndpoint.StringSpellingsOfTrue | POPPY_Universe/Recommendation_Engine/Poppy_Universe_Engine/Program.cs:219 | a string reads as true exactly when it is "1" or "true" in any mix of case |
| CloudEndpoint.NumberOneOnly | POPPY_Universe/Recommendation_Engine/Poppy_Universe_Engine/Program.cs:218 | an `Int32` number reads as true exactly when it is 1; "1.0" and "1e0" fail |
| CloudEndpoint.StringRead | POPPY_Universe/Recommendation_Engine/Poppy_Universe_Engine/Program.cs:227-231 | a read fails exactly for a boolean or a structure, and gives null exactly for null |
| CloudEndpoint.StringWrite | POPPY_Universe/Recommendation_Engine/Poppy_Universe_Engine/Program.cs:232 | a string is written as a JSON string |
| CloudEndpoint.StringRoundTrip | POPPY_Universe/Recommendation_Engine/Poppy_Universe_Engine/Program.cs:227-232 | reading back a written string gives it back |
| CloudEndpoint.IntegerTextKeepsValue | POPPY_Universe/Recommendation_Engine/Poppy_Universe_Engine/Program.cs:229 | an `Int64` number read as a string parses back to its value, and two integer literals read the same exactly when they denote the same number |

## Left out

Inputs and environment:

- Floating point: `double` is `real`. There is no rounding error, NaN or infinity, except where `Math.Round` is written out as round-half-to-even.
- `Math.Pow` with a fractional exponent, `Math.Log10` and `Math.Sqrt` are function parameters. The model assumes only the bounds it states about them: monotone on `[0, 1]`, a power of 1 at 1, a square root that squares back.
- Trigonometry is left out. The moon engine's parent offset (`sin`/`cos`), the planets' orbital-plane rotation and `ConvertToEquatorial` (Planetary_Position_Service.cs:296-360) are inputs.
  - The engines take each object's altitude and azimuth as given.
  - `Visibility_Service.cs` (local sidereal time, Alt/Az) is not part of this model. Its `GetJulianDay` is the same formula as `Ephemeris.ToJulianDate`.
- `System.Random`, `new Random()` in the Layer 1 engines and the static generator of the cloud Layer 2 are a caller-supplied stream of draws in `[0, 1)`.
  - The Box-Muller noise of `Mutate` is a parameter applied to pairs of those draws (`sqrt(-2 log u1) cos(2 pi u2)` needs `Log`, `Sqrt` and `Cos`).
- `FetchWeatherAsync` (HTTP and JSON) is not modelled. The forecast it returns is a parameter.
  - The forecast is assumed to hold the `cloudcover` and `precipitation` arrays under `hourly`, with a number in every entry. The `KeyNotFoundException` of `GetProperty` on a missing key and the exception of `GetDouble` on a `null` or non-number entry (WeatherChecker.cs:45-49, 81-88) are not modelled.
  - The weather reason is a datatype carrying the counts the source formats into its message, not the formatted text.
- The cloud endpoint is modelled as follows:
  - The ASP.NET host, JSON deserialisation of the payload and the engines' own calls are left out.
  - `RunEngine` takes the decoded payload (or its decoding exception), the outcome of Layer 1, and each boosting layer and the rank fusion as function parameters.
  - The boosters write the scores of the view objects the Layer 1 lists hold, in place, and their lists hold those same objects. The endpoint model keeps the state of all view objects as one abstract value `W`, which each layer receives and returns; which fields a booster reads and writes is modelled in the booster's own module.
  - Exceptions are a `Wrappers.Exception` kind, not .NET exception objects.
- `double.ToString()` of a number that is not integral is the token's literal text in `StringConverter`. The converters' `Write` methods produce a token, not bytes.
- `Engine_Controller.js` is modelled only for `safeParseFloat` and the `map*Result` mappers. `executeEngine`, `getCelestialPool`, `getUserConfig` and `getLayerNData` (fetch and SQL) are not part of this model.
  - In the mappers, `None` stands for an absent (`undefined`) property. A `layer5_FinalRank` that is `null` would count as a Layer 5 record in the source (it tests `!== undefined`); the engine's integer rank is never serialised as `null`, so the model has no such record.
  - A JavaScript value passed to `safeParseFloat` is an optional string. `None` stands for `undefined` and `null`, and `""` is the other falsy string. Other JavaScript types are left out.
- Case mapping (`ToLower`, `ToUpper`, `IgnoreCase` comparisons) is ASCII only.
- Console output (`Console.WriteLine`) is left out.
- `null` lists are left out: the model has no null list and no null list element. The `??=` and `!= null` guards on the like lists are empty lists.
- `Layer5_GA_Chromosome.Weights` is a `seq<real>` field that the methods reassign, not an `array`. Every constructor allocates a fresh array and no caller keeps a reference to it, so no aliasing is lost.
  - `Crossover` still builds its offspring in fresh arrays (`BlendArrays`).
- The record classes (`*_Objects`, `*_View`, `User_Object`, `Layer2_Interaction_Object`, `Layer3_User_Matrix_Object`) are datatypes. Only the score fields the boosters and engines write live in a mutable `Views.ScoreCard`.
  - `Layer4_User_NN_Object` is not part of this model. Layer 4 reads the same 21 preference fields as the Layer 3 matrix, so it takes a `PreferenceMatrix.UserMatrix`.
- The Python training scripts, the rest of the web back end, the front end and the stand-alone console `Program.cs` are not part of this model.

Behaviour the model states as the code has it, and deliberately weaker contracts:

- `Boosting.CentsText`, `Boosting.TenthsText`, `HaloBooster.DescriptionMeaning`, `MsiMatrixBooster.DescriptionMeaning`, `EngineController.PersonalizedAmount`, `EngineController.HaloAmount`: `Math.Round(x, 2).ToString()` (Layer2_Poppys_Trend_Booster.cs:117) and the interpolation `$"+{Math.Round(pointsAdded, 1)}% Personalized"` (Layer3_Poppys_Matrix_Booster-MSI.cs:138) format a `double` in the host's current culture. The model assumes that culture formats numbers like the invariant culture: `.` as the decimal separator and no digit grouping. Under a decimal-comma culture the text differs, and the read-back these members state does not hold.
- `TrendBooster.ReturnedSpec`, `MatrixBooster.ReturnedSpec` and `NNBooster.ReturnedSpec` have no tie-breaker. The source's `ThenByDescending` on the previous-layer score (stand-alone Layer 2 line 180, Layer 3 line 199, Layer 4 line 203) reads the score the loop has already overwritten, so it is the primary key again. Only the stable order of the primary sort is modelled.
- `HeadroomStarEngine.Engine.NormalizeCard`: a best score of 0 gives a percentage of 0. In C# the division by `0 * 1.1` gives NaN or infinity, which the model does not represent.
- `HeadroomStarEngine.Engine.GetRecommendedStars`: `Max` over no visible star throws `InvalidOperationException`, which is modelled as an `Err`.
- `MoonEngine.Engine.CalculateMoonPosition`: the Julian Date comes from `Ephemeris.ToJulianDate`, which has the same formula as the moon engine's own private copy (Layer1_Moon_Engine.cs:219-244). The offset from the parent is a parameter (trigonometry).
- `MoonEngine.CircularOrbit` states only the circular case of the moon engine's `SolveKeplerEquation`. The Newton step itself uses `sin`/`cos`, which are parameters.
- `Ephemeris.SolveKeplerEquation` states the loop's shape: the number of steps and the stopping rule. It says nothing about the accuracy of the root, because the Newton step uses `sin`/`cos`, which are parameters.
- `GAHandler.GetRank`: the source's comment says 999 but the code returns 998, and the model follows the code. 998 is also a real index in a list of 999 or more entries. The contract states the index of the first match, or 998 when there is none.
- `PlanetEngine.MagnitudeScoreConstant`: the view's `Magnitude`, `DistanceFromSun` and `DistanceFromEarth` are never assigned, so they read as 0. The magnitude score is therefore the capped constant `Math.Pow(5, 1.2)` for every planet, as the code has it.
- `CloudEndpoint.MissingConfigIsProblem`: Layers 4 and 5 read `Config` without a null check. A payload without a config fails with a null reference at Layer 4, and the model returns that as a problem response.
- `CloudEndpoint.LastLayerWins`: Layers 2, 3 and 4 are each handed the Layer 1 lists, but the view objects in those lists are shared and rewritten in place, so each layer works on the scores the previous one left. The response carries the lists of the last layer that ran, and every list the response or the fusion reads shows the views as the last running layer left them.
- `HaloBooster.BoostScores`: with no interaction rows, the cloud Layer 2 returns the top N by Layer 1 score, as the code has it.
- `TrendBooster.BoostScores`, `HaloBooster.BoostScores`: `ToDictionary` over rows with a repeated id throws `ArgumentException`. The model returns that error.
- `Weather.VisibilityCalculator.FetchWeather` only records the requested hours and returns the forecast handed in. The HTTP call is left out.

## Findings

| source | as written | input that shows it | evidently intended | confidence | as-written member | corrected member |
|---|---|---|---|---|---|---|
| POPPY_Universe/Recommendation_Engine/Poppy_Universe_Engine/Layer3_Poppys_Matrix_Booster-MSI.cs:42-54 | `ComputePlanetScore` lower-cases the planet type and then tests it for the capitalised keywords "Dwarf", "Gas", "Ice" and "Terr", which a lower-cased text never contains | the type "Gas Giant" (lower-cased "gas giant") scores the neutral 0.5 instead of the user's gas-giant preference | test for lower-case keywords, so that each category reaches its own column (`BoostAll` keeps the lookup as written; `BoostAllCorrected` boosts with the corrected one) | not executed | MsiMatrixBooster.PlanetPreferenceAsWrittenIsNeutral | MsiMatrixBooster.PlanetPreferenceCategories |
