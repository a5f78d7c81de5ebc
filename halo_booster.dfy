/** Layer 2 of the cloud engine (`Layer_2_Poppys_Trend_Booster`): objects with
    their own row in the trend model's output get the full trend boost;
    objects without one but whose category has rows get a "halo" boost, the
    category's average factor nudged by a random jitter; every other object
    keeps its Layer 1 score (rounded, capped at the ceiling). Every object is
    returned, best first, up to `topN`. */
module HaloBooster {
  import opened Wrappers
  import opened Numerics
  import opened Sorting
  import opened Ranking
  import opened Text
  import opened Views
  import opened Boosting
  import opened RandomSource
  import Trend = TrendBooster

  /** The number of rows of type exactly `cat` (`GroupBy` compares keys
      case-sensitively). */
  function CategoryCount(rows: seq<Interaction>, cat: string): nat {
    if rows == [] then 0
    else CategoryCount(rows[..|rows| - 1], cat) + (if rows[|rows| - 1].objectType == cat then 1 else 0)
  }

  /** The sum of the boost factors of the rows of type `cat`. */
  function FactorSum(rows: seq<Interaction>, cat: string, maxTotal: real): real {
    if rows == [] then 0.0
    else
      var last := rows[|rows| - 1];
      FactorSum(rows[..|rows| - 1], cat, maxTotal) + (if last.objectType == cat then Trend.BoostFactor(last, maxTotal) else 0.0)
  }

  lemma {:induction false} CategoryCountPositive(rows: seq<Interaction>, cat: string)
    ensures CategoryCount(rows, cat) > 0 <==> exists i :: 0 <= i < |rows| && rows[i].objectType == cat
  {
    if rows != [] {
      var front := rows[..|rows| - 1];
      CategoryCountPositive(front, cat);
      assert forall i :: 0 <= i < |front| ==> front[i] == rows[i];
    }
  }

  /** `categoryAverages[cat]`: the average boost factor of the rows of type
      `cat`, present exactly when there is such a row. */
  function CategoryAverage(rows: seq<Interaction>, cat: string, maxTotal: real): Option<real> {
    var n := CategoryCount(rows, cat);
    if n == 0 then None else Some(FactorSum(rows, cat, maxTotal) / n as real)
  }

  lemma {:induction false} FactorSumBounds(rows: seq<Interaction>, cat: string, maxTotal: real)
    requires forall i :: 0 <= i < |rows| ==> 0.0 <= rows[i].totalInteractions <= maxTotal
    ensures 0.0 <= FactorSum(rows, cat, maxTotal) <= CategoryCount(rows, cat) as real
  {
    if rows != [] {
      var front := rows[..|rows| - 1];
      assert forall i :: 0 <= i < |front| ==> front[i] == rows[i];
      FactorSumBounds(front, cat, maxTotal);
    }
  }

  /** When every row's total lies in `[0, maxTotal]`, a category's average
      factor lies in `[0, 1]`. */
  lemma CategoryAverageBounds(rows: seq<Interaction>, cat: string, maxTotal: real)
    requires forall i :: 0 <= i < |rows| ==> 0.0 <= rows[i].totalInteractions <= maxTotal
    ensures CategoryAverage(rows, cat, maxTotal).Some? ==>
      0.0 <= CategoryAverage(rows, cat, maxTotal).value <= 1.0
  {
    var n := CategoryCount(rows, cat);
    if n > 0 {
      var sum := FactorSum(rows, cat, maxTotal);
      FactorSumBounds(rows, cat, maxTotal);
      DivNonNegative(sum, n as real);
      DivMonotone(sum, n as real, n as real);
    }
  }

  /** How an object is boosted: by its own row, by its category's halo, or
      not at all. */
  datatype Match = Direct(row: Interaction) | Halo(average: real) | Unmatched

  /** The branch the boost loop takes for an object with id `key` and
      category `cat`. */
  function MatchOf(rows: seq<Interaction>, key: string, cat: string, maxTotal: real): Match {
    var direct := Trend.Lookup(rows, key);
    if direct.Some? then Direct(direct.value)
    else if cat != "" && CategoryAverage(rows, cat, maxTotal).Some? then Halo(CategoryAverage(rows, cat, maxTotal).value)
    else Unmatched
  }

  /** A halo object had no row of its own, a non-empty category, and the
      rows hold at least one row of exactly that category. */
  lemma HaloNeedsCategoryRow(rows: seq<Interaction>, key: string, cat: string, maxTotal: real)
    ensures MatchOf(rows, key, cat, maxTotal).Halo? <==>
      (forall j :: 0 <= j < |rows| ==> IntToString(rows[j].objectId) != key) &&
      cat != "" && exists j :: 0 <= j < |rows| && rows[j].objectType == cat
  {
    Trend.LookupSpec(rows, key);
    CategoryCountPositive(rows, cat);
  }

  /** The halo factor: the category average plus a variance from the
      object's Layer 1 standing, times 0.45, times a jitter in [0.9, 1.1). */
  function HaloFactor(average: real, base: real, maxPossible: real, draw: real): real
    requires maxPossible > 0.0
  {
    ((average + base / maxPossible * 0.05) * 0.45) * (0.9 + draw * 0.2)
  }

  /** With an average in `[0, 1]`, a base score within the ceiling and a
      draw in `[0, 1)`, the halo factor lies in `[0, 0.51975]`. */
  lemma HaloFactorBounds(average: real, base: real, maxPossible: real, draw: real)
    requires 0.0 <= average <= 1.0 && 0.0 <= base <= maxPossible && maxPossible > 0.0
    requires 0.0 <= draw < 1.0
    ensures 0.0 <= HaloFactor(average, base, maxPossible, draw) <= 0.51975
  {
    var v := base / maxPossible;
    DivNonNegative(base, maxPossible);
    DivMonotone(base, maxPossible, maxPossible);
    var x := (average + v * 0.05) * 0.45;
    var jitter := 0.9 + draw * 0.2;
    assert 0.0 <= x <= 0.4725;
    assert HaloFactor(average, base, maxPossible, draw) == x * jitter;
    if x > 0.0 {
      MulMonotone(x, jitter, 1.1);
      assert x * 1.1 <= 0.51975;
      MulNonNegative(x, jitter);
    }
  }

  /** The boost factor of the loop's three branches. */
  function FactorOf(m: Match, base: real, maxPossible: real, maxTotal: real, draw: real): real
    requires maxPossible > 0.0
  {
    match m
    case Direct(row) => Trend.BoostFactor(row, maxTotal)
    case Halo(average) => HaloFactor(average, base, maxPossible, draw)
    case Unmatched => 0.0
  }

  /** `Math.Min(maxPossibleScore, baseScore + maxBoostAllowed * boostFactor)`,
      with `maxBoostAllowed` 35% of the ceiling. */
  function RaisedScore(base: real, maxPossible: real, factor: real): (r: real)
    ensures r <= maxPossible
    ensures 0.0 <= factor && maxPossible >= 0.0 && base <= maxPossible ==> base <= r
    ensures factor == 0.0 ==> r == Min(maxPossible, base)
  {
    var maxBoost := maxPossible * 0.35;
    var boostValue := maxBoost * factor;
    assert 0.0 <= factor && maxPossible >= 0.0 ==> boostValue >= 0.0 by {
      if 0.0 <= factor && maxPossible >= 0.0 { MulNonNegative(maxBoost, factor); }
    }
    Min(maxPossible, base + boostValue)
  }

  /** The score an object ends with, rounded to cents. */
  function BoostedScore(base: real, maxPossible: real, factor: real): real {
    Round2(RaisedScore(base, maxPossible, factor))
  }

  /** The new score is at most the rounded ceiling and, for a non-negative
      factor and a base within the ceiling, at least the rounded base; an
      object without a boost keeps a two-decimal base within the ceiling. */
  lemma BoostedScoreBounds(base: real, maxPossible: real, factor: real)
    requires maxPossible > 0.0
    ensures BoostedScore(base, maxPossible, factor) <= Round2(maxPossible)
    ensures 0.0 <= factor && base <= maxPossible ==> Round2(base) <= BoostedScore(base, maxPossible, factor)
    ensures factor == 0.0 && base <= maxPossible && IsCents(base) ==> BoostedScore(base, maxPossible, factor) == base
  {
    var raised := RaisedScore(base, maxPossible, factor);
    Round2Monotone(raised, maxPossible);
    if 0.0 <= factor && base <= maxPossible {
      Round2Monotone(base, raised);
    }
    if factor == 0.0 && base <= maxPossible && IsCents(base) {
      Round2OfCents(base);
    }
  }

  /** `BoostDescription`: the rise of the match percentage, as .NET prints
      it rounded to cents, when it exceeds 0.01; otherwise "0". */
  function Description(newPct: real, originalPct: real): string {
    var diff := newPct - originalPct;
    if diff > 0.01 then CentsText(Round2(diff)) else "0"
  }

  /** The description is "0" exactly when the percentage rose by at most
      0.01; otherwise it reads back as the rounded rise, which is positive. */
  lemma DescriptionMeaning(newPct: real, originalPct: real)
    ensures Description(newPct, originalPct) == "0" <==> newPct - originalPct <= 0.01
    ensures newPct - originalPct > 0.01 ==>
      IsDecimalText(Description(newPct, originalPct)) &&
      ParseDecimal(Description(newPct, originalPct)) == Round2(newPct - originalPct) > 0.0
  {
    var diff := newPct - originalPct;
    if diff > 0.01 {
      ZeroText();
      var t := CentsText(Round2(diff));
      assert ParseDecimal(t) > 0.0;
      assert t != "0";
    }
  }

  /** The new state of one object; `draw` is the `NextDouble()` the halo
      branch takes, unused by the other branches. */
  function BoostOne(s: CardState, m: Match, maxPossible: real, maxTotal: real, draw: real): CardState
    requires maxPossible > 0.0
  {
    var boosted := BoostedScore(s.score, maxPossible, FactorOf(m, s.score, maxPossible, maxTotal, draw));
    var pct := MatchPercentageOf(boosted, maxPossible);
    s.(score := boosted, matchPercentage := pct, boostDescription := Description(pct, s.matchPercentage))
  }

  /** The branch taken for each object. */
  function Matches(keys: seq<string>, cats: seq<string>, rows: seq<Interaction>): (r: seq<Match>)
    requires |cats| == |keys| && |rows| > 0
    ensures |r| == |keys|
  {
    var maxTotal := Trend.MaxInteractions(rows);
    seq(|keys|, i requires 0 <= i < |keys| => MatchOf(rows, keys[i], cats[i], maxTotal))
  }

  /** The number of halo objects, which is the number of draws taken. */
  function HaloCount(ms: seq<Match>): (r: nat)
    ensures r <= |ms|
  {
    if ms == [] then 0 else HaloCount(ms[..|ms| - 1]) + (if ms[|ms| - 1].Halo? then 1 else 0)
  }

  /** The states after the boost loop, when there are objects and rows:
      object `i` takes draw number `start + (halo objects before i)`. */
  function Boost(states: seq<CardState>, keys: seq<string>, cats: seq<string>, rows: seq<Interaction>,
                 stream: nat -> real, start: nat): (r: seq<CardState>)
    requires |keys| == |states| && |cats| == |states| && |rows| > 0
    ensures |r| == |states|
  {
    BoostWith(states, Matches(keys, cats, rows), MaxPossibleScore(states, false), Trend.MaxInteractions(rows), stream, start)
  }

  /** The boost loop's result once each object's branch `ms[i]` is known. */
  function BoostWith(states: seq<CardState>, ms: seq<Match>, maxPossible: real, maxTotal: real,
                     stream: nat -> real, start: nat): (r: seq<CardState>)
    requires |ms| == |states| && maxPossible > 0.0
    ensures |r| == |states|
  {
    seq(|states|, i requires 0 <= i < |states| => BoostAt(states[i], ms, i, maxPossible, maxTotal, stream, start))
  }

  /** Object `i` of the loop, which takes draw number `start + (halo objects
      before i)` if it is a halo object. */
  function BoostAt(s: CardState, ms: seq<Match>, i: nat, maxPossible: real, maxTotal: real,
                   stream: nat -> real, start: nat): CardState
    requires i < |ms| && maxPossible > 0.0
  {
    BoostOne(s, ms[i], maxPossible, maxTotal, stream(start + HaloCount(ms[..i])))
  }

  /** The states `BoostScores` leaves when it does not throw: with no
      objects or no rows nothing is written. */
  function Outcome(states: seq<CardState>, keys: seq<string>, cats: seq<string>, rows: seq<Interaction>,
                   stream: nat -> real, start: nat): (r: seq<CardState>)
    requires |keys| == |states| && |cats| == |states|
    ensures |r| == |states|
  {
    if |states| == 0 || |rows| == 0 then states else Boost(states, keys, cats, rows, stream, start)
  }

  /** How many values `BoostScores` draws from the shared generator. */
  function Draws(count: nat, keys: seq<string>, cats: seq<string>, rows: seq<Interaction>): (r: nat)
    requires |cats| == |keys|
    ensures r <= count || r <= |keys|
  {
    if count == 0 || |rows| == 0 || Trend.Fails(count, rows) then 0 else HaloCount(Matches(keys, cats, rows))
  }

  /** A boosted state lies between the rounded base and the rounded ceiling,
      with a percentage in `[0, 100]`. */
  predicate WithinCeiling(base: real, after: CardState, maxPossible: real) {
    Round2(base) <= after.score <= Round2(maxPossible) && 0.0 <= after.matchPercentage <= 100.0
  }

  /** One object with a score in `[0, maxPossible]` and a non-negative
      factor ends between its rounded base and the rounded ceiling, with a
      percentage in `[0, 100]`. */
  lemma BoostOneBounds(s: CardState, m: Match, maxPossible: real, maxTotal: real, draw: real)
    requires maxPossible > 0.0 && 0.0 <= s.score <= maxPossible
    requires 0.0 <= FactorOf(m, s.score, maxPossible, maxTotal, draw)
    ensures WithinCeiling(s.score, BoostOne(s, m, maxPossible, maxTotal, draw), maxPossible)
  {
    BoostedScoreBounds(s.score, maxPossible, FactorOf(m, s.score, maxPossible, maxTotal, draw));
    Round2AtLeast(s.score, 0.0);
  }

  /** Each object in the loop, whatever its branch, with a sound Layer 1
      percentage in `(0, 100]` and a non-negative score, boosted against rows
      with non-negative totals and with draws in `[0, 1)`, ends between its
      rounded base and the rounded ceiling, with a percentage in `[0, 100]`. */
  lemma {:induction false} BoostWithinCeiling(states: seq<CardState>, keys: seq<string>, cats: seq<string>,
                                               rows: seq<Interaction>, stream: nat -> real, start: nat, i: nat)
    requires |keys| == |states| && |cats| == |states| && |rows| > 0 && i < |states|
    requires forall j :: 0 <= j < |rows| ==> rows[j].totalInteractions >= 0.0
    requires 0.0 < states[i].matchPercentage <= 100.0 && states[i].score >= 0.0
    requires IsUnitStream(stream)
    ensures WithinCeiling(states[i].score, Boost(states, keys, cats, rows, stream, start)[i], MaxPossibleScore(states, false))
  {
    var maxPossible := MaxPossibleScore(states, false);
    var maxTotal := Trend.MaxInteractions(rows);
    var ms := Matches(keys, cats, rows);
    ScoreWithinCeiling(states, false, i);
    MatchFactorNonNegative(keys, cats, rows, i, states[i].score, maxPossible, stream(start + HaloCount(ms[..i])));
    BoostWithBounds(states, ms, maxPossible, maxTotal, stream, start, i);
    assert Boost(states, keys, cats, rows, stream, start) == BoostWith(states, ms, maxPossible, maxTotal, stream, start);
  }

  lemma BoostWithBounds(states: seq<CardState>, ms: seq<Match>, maxPossible: real, maxTotal: real,
                        stream: nat -> real, start: nat, i: nat)
    requires |ms| == |states| && maxPossible > 0.0 && i < |states|
    requires 0.0 <= states[i].score <= maxPossible
    requires 0.0 <= FactorOf(ms[i], states[i].score, maxPossible, maxTotal, stream(start + HaloCount(ms[..i])))
    ensures WithinCeiling(states[i].score, BoostWith(states, ms, maxPossible, maxTotal, stream, start)[i], maxPossible)
  {
    BoostAtBounds(states[i], ms, i, maxPossible, maxTotal, stream, start);
  }

  lemma BoostAtBounds(s: CardState, ms: seq<Match>, i: nat, maxPossible: real, maxTotal: real,
                      stream: nat -> real, start: nat)
    requires i < |ms| && maxPossible > 0.0 && 0.0 <= s.score <= maxPossible
    requires 0.0 <= FactorOf(ms[i], s.score, maxPossible, maxTotal, stream(start + HaloCount(ms[..i])))
    ensures WithinCeiling(s.score, BoostAt(s, ms, i, maxPossible, maxTotal, stream, start), maxPossible)
  {
    BoostOneBounds(s, ms[i], maxPossible, maxTotal, stream(start + HaloCount(ms[..i])));
  }

  lemma MatchFactorNonNegative(keys: seq<string>, cats: seq<string>, rows: seq<Interaction>, i: nat,
                               base: real, maxPossible: real, draw: real)
    requires |cats| == |keys| && |rows| > 0 && i < |keys|
    requires forall j :: 0 <= j < |rows| ==> rows[j].totalInteractions >= 0.0
    requires 0.0 <= base <= maxPossible && maxPossible > 0.0 && 0.0 <= draw < 1.0
    ensures 0.0 <= FactorOf(Matches(keys, cats, rows)[i], base, maxPossible, Trend.MaxInteractions(rows), draw)
  {
    var maxTotal := Trend.MaxInteractions(rows);
    assert forall j :: 0 <= j < |rows| ==> 0.0 <= rows[j].totalInteractions <= maxTotal;
    FactorNonNegative(Matches(keys, cats, rows)[i], rows, keys[i], cats[i], base, maxPossible, maxTotal, draw);
  }

  lemma FactorNonNegative(m: Match, rows: seq<Interaction>, key: string, cat: string,
                          base: real, maxPossible: real, maxTotal: real, draw: real)
    requires m == MatchOf(rows, key, cat, maxTotal)
    requires forall j :: 0 <= j < |rows| ==> 0.0 <= rows[j].totalInteractions <= maxTotal
    requires 0.0 <= base <= maxPossible && maxPossible > 0.0 && 0.0 <= draw < 1.0
    ensures 0.0 <= FactorOf(m, base, maxPossible, maxTotal, draw)
  {
    if m.Direct? {
      Trend.LookupSpec(rows, key);
    } else if m.Halo? {
      CategoryAverageBounds(rows, cat, maxTotal);
      HaloFactorBounds(m.average, base, maxPossible, draw);
    }
  }

  /** An object with neither its own row nor a halo keeps a two-decimal
      score within the ceiling, and gets the percentage that score implies. */
  lemma UnmatchedKeepsScore(states: seq<CardState>, keys: seq<string>, cats: seq<string>,
                            rows: seq<Interaction>, stream: nat -> real, start: nat, i: nat)
    requires |keys| == |states| && |cats| == |states| && |rows| > 0 && i < |states|
    requires Matches(keys, cats, rows)[i].Unmatched?
    requires states[i].score <= MaxPossibleScore(states, false) && IsCents(states[i].score)
    ensures var after := Boost(states, keys, cats, rows, stream, start)[i];
      after.score == states[i].score &&
      after.matchPercentage == MatchPercentageOf(states[i].score, MaxPossibleScore(states, false))
  {
    var maxPossible := MaxPossibleScore(states, false);
    var ms := Matches(keys, cats, rows);
    var draw := stream(start + HaloCount(ms[..i]));
    assert Boost(states, keys, cats, rows, stream, start)[i] ==
      BoostAt(states[i], ms, i, maxPossible, Trend.MaxInteractions(rows), stream, start);
    BoostedScoreBounds(states[i].score, maxPossible, 0.0);
  }

  lemma {:induction false} HaloCountSnoc(ms: seq<Match>, i: nat)
    requires i < |ms|
    ensures HaloCount(ms[..i + 1]) == HaloCount(ms[..i]) + (if ms[i].Halo? then 1 else 0)
  {
    assert ms[..i + 1][..i] == ms[..i];
  }

  /** Only the halo branch reads the draw. */
  lemma BoostAtDraw(s: CardState, ms: seq<Match>, i: nat, maxPossible: real, maxTotal: real,
                    stream: nat -> real, start: nat, draw: real)
    requires i < |ms| && maxPossible > 0.0
    requires ms[i].Halo? ==> draw == stream(start + HaloCount(ms[..i]))
    ensures BoostAt(s, ms, i, maxPossible, maxTotal, stream, start) == BoostOne(s, ms[i], maxPossible, maxTotal, draw)
  {
    var d := stream(start + HaloCount(ms[..i]));
    assert FactorOf(ms[i], s.score, maxPossible, maxTotal, draw) == FactorOf(ms[i], s.score, maxPossible, maxTotal, d);
  }

  /** What a successful `BoostScores` leaves behind: the cards hold the
      outcome, the generator moved past the draws taken, and the result lists
      the best `topN` objects by their new score. */
  ghost predicate BoostedAs<T>(objects: seq<T>, before: seq<CardState>, after: seq<CardState>,
                               keys: seq<string>, cats: seq<string>, rows: seq<Interaction>, topN: int,
                               result: seq<T>, stream: nat -> real, start: nat, end: nat)
  {
    |keys| == |before| && |cats| == |before| && |objects| == |before| &&
    after == Outcome(before, keys, cats, rows, stream, start) &&
    end == start + Draws(|before|, keys, cats, rows) &&
    result == Pick(objects, Top(Scores(after), topN))
  }

  /** One pass of the boost loop: draw if the object is a halo object, then
      write its new state. */
  method BoostCard(card: ScoreCard, ms: seq<Match>, i: nat, maxPossible: real, maxTotal: real, random: Random,
                   ghost start: nat)
    requires i < |ms| && maxPossible > 0.0
    requires random.Valid() && random.position == start + HaloCount(ms[..i])
    modifies card, random`position
    ensures card.State() == BoostAt(old(card.State()), ms, i, maxPossible, maxTotal, random.stream, start)
    ensures random.position == start + HaloCount(ms[..i + 1])
  {
    var s := card.State();
    var draw := 0.0;
    if ms[i].Halo? {
      draw := random.NextDouble();
    }
    HaloCountSnoc(ms, i);
    BoostAtDraw(s, ms, i, maxPossible, maxTotal, random.stream, start, draw);
    SetState(card, BoostOne(s, ms[i], maxPossible, maxTotal, draw));
  }

  /** The boost loop, with the ceiling, the largest total and each object's
      branch already known. */
  method ApplyBoost(cards: seq<ScoreCard>, ms: seq<Match>, maxPossible: real, maxTotal: real, random: Random)
    requires DistinctCards(cards) && |ms| == |cards| && maxPossible > 0.0
    requires random.Valid()
    modifies cards, random`position
    ensures States(cards) == BoostWith(old(States(cards)), ms, maxPossible, maxTotal, random.stream, old(random.position))
    ensures random.position == old(random.position) + HaloCount(ms)
  {
    ghost var before := States(cards);
    ghost var start := random.position;
    ghost var target := BoostWith(before, ms, maxPossible, maxTotal, random.stream, start);
    for i := 0 to |cards|
      invariant random.position == start + HaloCount(ms[..i])
      invariant forall k :: 0 <= k < i ==> cards[k].State() == target[k]
      invariant forall k :: i <= k < |cards| ==> cards[k].State() == before[k]
    {
      assert target[i] == BoostAt(before[i], ms, i, maxPossible, maxTotal, random.stream, start);
      BoostCard(cards[i], ms, i, maxPossible, maxTotal, random, start);
    }
    assert ms[..|cards|] == ms;
  }

  /** `BoostScores`: update every object's card in place and return the best
      `topN` objects; a repeated row id throws before any card is written or
      any value drawn. */
  method BoostScores<T>(objects: seq<T>, cards: seq<ScoreCard>, keys: seq<string>, cats: seq<string>,
                        rows: seq<Interaction>, topN: int, random: Random)
    returns (r: Result<seq<T>, Exception>)
    requires |cards| == |objects| && |keys| == |objects| && |cats| == |objects|
    requires DistinctCards(cards) && random.Valid()
    modifies cards, random`position
    ensures r.Err? <==> Trend.Fails(|objects|, rows)
    ensures r.Err? ==> (r.error == Trend.DuplicateKey(rows[Trend.FirstRepeat(rows).value].objectId) &&
      States(cards) == old(States(cards)) && random.position == old(random.position))
    ensures r.Ok? ==> BoostedAs(objects, old(States(cards)), States(cards), keys, cats, rows, topN, r.value,
                                random.stream, old(random.position), random.position)
  {
    if |objects| == 0 {
      return Ok([]);
    }
    if |rows| == 0 {
      return Ok(Pick(objects, Top(Scores(States(cards)), topN)));
    }
    var maxPossible := MaxPossible(cards, false);
    var maxTotal := Trend.MaxInteractions(rows);
    var repeat := Trend.FirstRepeat(rows);
    if repeat.Some? {
      return Err(Trend.DuplicateKey(rows[repeat.value].objectId));
    }
    var ms := Matches(keys, cats, rows);
    ApplyBoost(cards, ms, maxPossible, maxTotal, random);
    r := Ok(Pick(objects, Top(Scores(States(cards)), topN)));
  }

  /** `categoryMatch`: the row's type contains `type`, ignoring case. */
  predicate CategoryMatch(row: Interaction, objectType: string) {
    IndexOfIgnoreCase(row.objectType, objectType) >= 0
  }

  /** `interactions.Where(i => categoryMatch(i, type))`. */
  function RowsOfCategory(rows: seq<Interaction>, objectType: string): (r: seq<Interaction>)
    ensures forall k :: 0 <= k < |r| ==> r[k] in rows && CategoryMatch(r[k], objectType)
    ensures forall i :: 0 <= i < |rows| && CategoryMatch(rows[i], objectType) ==> rows[i] in r
  {
    var flags := seq(|rows|, i requires 0 <= i < |rows| => CategoryMatch(rows[i], objectType));
    var picked := Where(flags);
    var r := Pick(rows, picked);
    assert forall i :: 0 <= i < |rows| && CategoryMatch(rows[i], objectType) ==> rows[i] in r by {
      forall i | 0 <= i < |rows| && CategoryMatch(rows[i], objectType) ensures rows[i] in r {
        assert flags[i];
        assert i in picked;
        var k :| 0 <= k < |picked| && picked[k] == i;
        assert r[k] == rows[i];
      }
    }
    r
  }

  /** Among the rows kept for a type, a halo needs an object category that
      itself contains the type, ignoring case: a planet whose `Type` does not
      contain "planet" is never halo-boosted. */
  lemma HaloOnlyForMatchingCategory(interactions: seq<Interaction>, objectType: string,
                                    key: string, cat: string, maxTotal: real)
    ensures MatchOf(RowsOfCategory(interactions, objectType), key, cat, maxTotal).Halo? ==>
      IndexOfIgnoreCase(cat, objectType) >= 0
  {
    var rows := RowsOfCategory(interactions, objectType);
    if MatchOf(rows, key, cat, maxTotal).Halo? {
      HaloNeedsCategoryRow(rows, key, cat, maxTotal);
      var j :| 0 <= j < |rows| && rows[j].objectType == cat;
      assert CategoryMatch(rows[j], objectType);
    }
  }

  /** The category `BoostAll` gives every star, every moon, and each planet. */
  function Constant(n: nat, cat: string): (r: seq<string>)
    ensures |r| == n && forall i :: 0 <= i < n ==> r[i] == cat
  {
    seq(n, i => cat)
  }

  function PlanetTypes(views: seq<PlanetView>): (r: seq<string>)
    ensures |r| == |views| && forall i :: 0 <= i < |views| ==> r[i] == views[i].planetType
  {
    seq(|views|, i requires 0 <= i < |views| => views[i].planetType)
  }

  /** The moon part of `BoostAll`: every moon boosted under the category
      "Moon", keyed by its id. */
  method BoostMoons(moons: seq<MoonView>, moonRows: seq<Interaction>, n: int, random: Random,
                    ghost others: seq<ScoreCard>)
    returns (r: Result<seq<MoonView>, Exception>)
    requires DistinctCards(MoonCards(moons)) && random.Valid()
    requires DisjointCards(others, MoonCards(moons))
    modifies MoonCards(moons), random`position
    ensures States(others) == old(States(others))
    ensures r.Err? <==> Trend.Fails(|moons|, moonRows)
    ensures r.Ok? ==>
      BoostedAs(moons, old(States(MoonCards(moons))), States(MoonCards(moons)), MoonIds(moons),
                Constant(|moons|, "Moon"), moonRows, n, r.value, random.stream, old(random.position), random.position)
  {
    r := BoostScores(moons, MoonCards(moons), MoonIds(moons), Constant(|moons|, "Moon"), moonRows, n, random);
    StatesKept(others);
  }

  /** The planet part of `BoostAll`: every planet boosted under its own
      `Type`, keyed by its id. */
  method BoostPlanets(planets: seq<PlanetView>, planetRows: seq<Interaction>, n: int, random: Random,
                      ghost others: seq<ScoreCard>)
    returns (r: Result<seq<PlanetView>, Exception>)
    requires DistinctCards(PlanetCards(planets)) && random.Valid()
    requires DisjointCards(PlanetCards(planets), others)
    modifies PlanetCards(planets), random`position
    ensures States(others) == old(States(others))
    ensures r.Err? <==> Trend.Fails(|planets|, planetRows)
    ensures r.Ok? ==>
      BoostedAs(planets, old(States(PlanetCards(planets))), States(PlanetCards(planets)), PlanetIds(planets),
                PlanetTypes(planets), planetRows, n, r.value, random.stream, old(random.position), random.position)
  {
    r := BoostScores(planets, PlanetCards(planets), PlanetIds(planets), PlanetTypes(planets), planetRows, n, random);
    StatesKept(others);
  }

  /** The planet and moon half of `BoostAll`, on the rows kept for each,
      drawing from the generator after the stars; `mid` is where the planets'
      draws end. */
  method BoostPlanetsAndMoons(planets: seq<PlanetView>, moons: seq<MoonView>,
                              planetRows: seq<Interaction>, moonRows: seq<Interaction>, n: int, random: Random)
    returns (r: Result<(seq<PlanetView>, seq<MoonView>), Exception>, ghost mid: nat)
    requires DistinctCards(PlanetCards(planets)) && DistinctCards(MoonCards(moons))
    requires DisjointCards(PlanetCards(planets), MoonCards(moons))
    requires random.Valid()
    modifies PlanetCards(planets), MoonCards(moons), random`position
    ensures r.Err? <==> Trend.Fails(|planets|, planetRows) || Trend.Fails(|moons|, moonRows)
    ensures r.Ok? ==>
      BoostedAs(planets, old(States(PlanetCards(planets))), States(PlanetCards(planets)), PlanetIds(planets),
                PlanetTypes(planets), planetRows, n, r.value.0, random.stream, old(random.position), mid) &&
      BoostedAs(moons, old(States(MoonCards(moons))), States(MoonCards(moons)), MoonIds(moons),
                Constant(|moons|, "Moon"), moonRows, n, r.value.1, random.stream, mid, random.position)
  {
    var planetCards, moonCards := PlanetCards(planets), MoonCards(moons);
    var boostedPlanets := BoostPlanets(planets, planetRows, n, random, moonCards);
    mid := random.position;
    if boostedPlanets.Err? {
      return Err(boostedPlanets.error), mid;
    }
    var boostedMoons := BoostMoons(moons, moonRows, n, random, planetCards);
    if boostedMoons.Err? {
      return Err(boostedMoons.error), mid;
    }
    r := Ok((boostedPlanets.value, boostedMoons.value));
  }

  /** `BoostAll`: boost stars, then planets, then moons, each against the
      rows whose type contains its own, with one generator shared by the
      three; the first repeated row id aborts the rest. The stars' draws end
      at `afterStars`, the planets' at `afterPlanets`. */
  method BoostAll(stars: seq<StarView>, planets: seq<PlanetView>, moons: seq<MoonView>,
                  interactions: seq<Interaction>, topPerType: int, random: Random)
    returns (r: Result<BoostResult, Exception>, ghost afterStars: nat, ghost afterPlanets: nat)
    requires DistinctCards(StarCards(stars)) && DistinctCards(PlanetCards(planets)) && DistinctCards(MoonCards(moons))
    requires DisjointCards(StarCards(stars), PlanetCards(planets)) && DisjointCards(StarCards(stars), MoonCards(moons))
    requires DisjointCards(PlanetCards(planets), MoonCards(moons))
    requires random.Valid()
    modifies StarCards(stars), PlanetCards(planets), MoonCards(moons), random`position
    ensures r.Err? <==>
      Trend.Fails(|stars|, RowsOfCategory(interactions, "Star")) ||
      Trend.Fails(|planets|, RowsOfCategory(interactions, "Planet")) ||
      Trend.Fails(|moons|, RowsOfCategory(interactions, "Moon"))
    ensures r.Ok? ==>
      BoostedAs(stars, old(States(StarCards(stars))), States(StarCards(stars)), StarIds(stars),
                Constant(|stars|, "Star"), RowsOfCategory(interactions, "Star"), TopPerType(topPerType),
                r.value.recommendedStars, random.stream, old(random.position), afterStars) &&
      BoostedAs(planets, old(States(PlanetCards(planets))), States(PlanetCards(planets)), PlanetIds(planets),
                PlanetTypes(planets), RowsOfCategory(interactions, "Planet"), TopPerType(topPerType),
                r.value.recommendedPlanets, random.stream, afterStars, afterPlanets) &&
      BoostedAs(moons, old(States(MoonCards(moons))), States(MoonCards(moons)), MoonIds(moons),
                Constant(|moons|, "Moon"), RowsOfCategory(interactions, "Moon"), TopPerType(topPerType),
                r.value.recommendedMoons, random.stream, afterPlanets, random.position)
  {
    var n := TopPerType(topPerType);
    var starCards, starRows := StarCards(stars), RowsOfCategory(interactions, "Star");
    var boostedStars := BoostScores(stars, starCards, StarIds(stars), Constant(|stars|, "Star"),
                                    starRows, n, random);
    afterStars := random.position;
    afterPlanets := random.position;
    if boostedStars.Err? {
      return Err(boostedStars.error), afterStars, afterPlanets;
    }
    StatesKept(PlanetCards(planets));
    StatesKept(MoonCards(moons));
    label Stars:
    var rest;
    rest, afterPlanets := BoostPlanetsAndMoons(planets, moons, RowsOfCategory(interactions, "Planet"),
                                               RowsOfCategory(interactions, "Moon"), n, random);
    if rest.Err? {
      return Err(rest.error), afterStars, afterPlanets;
    }
    StatesKept@Stars(starCards);
    r := Ok(BoostResult(boostedStars.value, rest.value.0, rest.value.1));
  }
}
