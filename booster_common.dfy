/** What the Layer 2-4 boosters share: the ceiling each one reverse-calculates
    from the Layer 1 scores and match percentages, the match percentage it
    derives from a boosted score, and writing a new state into a view's card. */
module Boosting {
  import opened Numerics
  import opened Views
  import Text

  /** An object whose score and match percentage reveal a ceiling: a positive
      match percentage and, for the boosters that ask for it, a positive score. */
  predicate Calibrates(s: CardState, needScore: bool) {
    s.matchPercentage > 0.0 && (!needScore || s.score > 0.0)
  }

  /** `score / (matchPct / 100.0)`: the maximum score this object's
      percentage implies. */
  function CalculatedMax(s: CardState): real
    requires s.matchPercentage > 0.0
  {
    s.score / (s.matchPercentage / 100.0)
  }

  /** The largest implied maximum, or 0 when no object calibrates. */
  function Ceiling(states: seq<CardState>, needScore: bool): (r: real)
    ensures r >= 0.0
  {
    if states == [] then 0.0
    else
      var last := states[|states| - 1];
      var m := Ceiling(states[..|states| - 1], needScore);
      if Calibrates(last, needScore) && CalculatedMax(last) > m then CalculatedMax(last) else m
  }

  /** The ceiling is at least every calibrating object's implied maximum,
      and it is 0 or one of them. */
  lemma {:induction false} CeilingSpec(states: seq<CardState>, needScore: bool)
    ensures var r := Ceiling(states, needScore);
      (forall i :: 0 <= i < |states| && Calibrates(states[i], needScore) ==> CalculatedMax(states[i]) <= r) &&
      (r == 0.0 || exists i :: 0 <= i < |states| && Calibrates(states[i], needScore) && CalculatedMax(states[i]) == r)
  {
    if states != [] {
      var init := states[..|states| - 1];
      CeilingSpec(init, needScore);
      var r := Ceiling(states, needScore);
      forall i | 0 <= i < |states| - 1
        ensures states[i] == init[i]
      {
      }
      if r != 0.0 && r == Ceiling(init, needScore) {
        var j :| 0 <= j < |init| && Calibrates(init[j], needScore) && CalculatedMax(init[j]) == r;
        assert states[j] == init[j];
      }
    }
  }

  /** `maxPossibleScore`: the ceiling, or 100 when it is not positive. */
  function MaxPossibleScore(states: seq<CardState>, needScore: bool): (r: real)
    ensures r > 0.0
  {
    var m := Ceiling(states, needScore);
    if m <= 0.0 then 100.0 else m
  }

  /** Every object with a percentage in `(0, 100]` and a non-negative score
      scores no more than the ceiling; so does every non-positive score. */
  lemma ScoreWithinCeiling(states: seq<CardState>, needScore: bool, i: nat)
    requires i < |states|
    requires (0.0 < states[i].matchPercentage <= 100.0 && states[i].score >= 0.0) || states[i].score <= 0.0
    ensures states[i].score <= MaxPossibleScore(states, needScore)
  {
    if states[i].score > 0.0 {
      CeilingSpec(states, needScore);
      assert CalculatedMax(states[i]) <= Ceiling(states, needScore);
      ScoreWithinOwnMax(states[i]);
    }
  }

  /** A positive score with a percentage in `(0, 100]` is at most the
      maximum that percentage implies. */
  lemma ScoreWithinOwnMax(s: CardState)
    requires 0.0 < s.matchPercentage <= 100.0 && s.score > 0.0
    ensures s.score <= CalculatedMax(s)
  {
    var f := s.matchPercentage / 100.0;
    assert 0.0 < f <= 1.0;
    assert CalculatedMax(s) * f == s.score;
    MulMonotone(CalculatedMax(s), f, 1.0);
  }

  /** `Math.Round(score / maxPossible * 100, 2)`, capped at 100. */
  function MatchPercentageOf(score: real, maxPossible: real): (r: real)
    requires maxPossible > 0.0
    ensures IsCents(r) && r <= 100.0
    ensures score >= 0.0 ==> r >= 0.0
    ensures 0.0 <= score <= maxPossible ==> r == Round2(score / maxPossible * 100.0)
  {
    var pct := Round2(score / maxPossible * 100.0);
    PercentageBounds(score, maxPossible);
    if pct > 100.0 then 100.0 else pct
  }

  lemma PercentageBounds(score: real, maxPossible: real)
    requires maxPossible > 0.0
    ensures IsCents(100.0)
    ensures score >= 0.0 ==> Round2(score / maxPossible * 100.0) >= 0.0
    ensures 0.0 <= score <= maxPossible ==> Round2(score / maxPossible * 100.0) <= 100.0
  {
    assert IsCents(100.0) by { assert 100.0 == (10000 as real) / 100.0; }
    var x := score / maxPossible;
    if score >= 0.0 {
      DivNonNegative(score, maxPossible);
      assert x * 100.0 >= 0.0;
      assert IsCents(0.0);
      Round2AtLeast(x * 100.0, 0.0);
    }
    if 0.0 <= score <= maxPossible {
      DivMonotone(score, maxPossible, maxPossible);
      assert maxPossible / maxPossible == 1.0;
      assert x <= 1.0;
      assert x * 100.0 <= 100.0;
      Round2AtMost(x * 100.0, 100.0);
    }
  }

  /** `c.ToString()` for a non-negative value with at most two decimals,
      in a culture that writes `.` as the decimal separator and no digit
      grouping: the text reads back as `c`. */
  function CentsText(c: real): (r: string)
    requires c >= 0.0 && IsCents(c)
    ensures Text.IsDecimalText(r) && Text.ParseDecimal(r) == c
  {
    CentsReadBack(c);
    Text.FormatFixed((c * 100.0).Floor as nat, 2)
  }

  /** `c.ToString()` for a non-negative value with at most one decimal,
      in a culture that writes `.` as the decimal separator. */
  function TenthsText(c: real): (r: string)
    requires c >= 0.0 && IsTenths(c)
    ensures Text.IsDecimalText(r) && Text.ParseDecimal(r) == c
  {
    TenthsReadBack(c);
    Text.FormatFixed((c * 10.0).Floor as nat, 1)
  }

  /** A non-negative whole number of cents, written with two decimals,
      reads back as itself. */
  lemma CentsReadBack(c: real)
    requires c >= 0.0 && IsCents(c)
    ensures (c * 100.0).Floor >= 0
    ensures Text.IsDecimalText(Text.FormatFixed((c * 100.0).Floor as nat, 2))
    ensures Text.ParseDecimal(Text.FormatFixed((c * 100.0).Floor as nat, 2)) == c
  {
    var k := (c * 100.0).Floor;
    assert k >= 0;
    CentsWritten(k as nat);
    assert k as real / 100.0 == c;
  }

  lemma CentsWritten(k: nat)
    ensures Text.IsDecimalText(Text.FormatFixed(k, 2))
    ensures Text.ParseDecimal(Text.FormatFixed(k, 2)) == k as real / 100.0
  {
    assert Text.Pow10(2) == 100;
    Text.FormatFixedOver(k, 2, 100);
  }

  /** A non-negative whole number of tenths, written with one decimal,
      reads back as itself. */
  lemma TenthsReadBack(c: real)
    requires c >= 0.0 && IsTenths(c)
    ensures (c * 10.0).Floor >= 0
    ensures Text.IsDecimalText(Text.FormatFixed((c * 10.0).Floor as nat, 1))
    ensures Text.ParseDecimal(Text.FormatFixed((c * 10.0).Floor as nat, 1)) == c
  {
    var k := (c * 10.0).Floor;
    assert k >= 0;
    TenthsWritten(k as nat);
    assert k as real / 10.0 == c;
  }

  lemma TenthsWritten(k: nat)
    ensures Text.IsDecimalText(Text.FormatFixed(k, 1))
    ensures Text.ParseDecimal(Text.FormatFixed(k, 1)) == k as real / 10.0
  {
    assert Text.Pow10(1) == 10;
    Text.FormatFixedOver(k, 1, 10);
  }

  /** The two caps of the stand-alone Layer 3 and Layer 4 boosters: cap 1,
      at `maxBoost` above the base, then cap 2, at the ceiling. */
  function Caps(base: real, maxBoost: real, maxPossible: real, boosted: real): (r: real)
    ensures r <= maxPossible && r <= base + maxBoost && r <= boosted
    ensures boosted <= base + maxBoost ==> r == Min(maxPossible, boosted)
  {
    var capped := if boosted > base + maxBoost then base + maxBoost else boosted;
    if capped > maxPossible then maxPossible else capped
  }

  /** The two caps keep the order of the boosts. */
  lemma CapsMonotone(base: real, maxBoost: real, maxPossible: real, x: real, y: real)
    requires x <= y
    ensures Caps(base, maxBoost, maxPossible, base + x) <= Caps(base, maxBoost, maxPossible, base + y)
  {
  }

  /** One more object raises the ceiling to its own implied maximum when
      it calibrates and implies more. */
  lemma CeilingStep(states: seq<CardState>, i: nat, needScore: bool)
    requires i < |states|
    ensures Ceiling(states[..i + 1], needScore) ==
      if Calibrates(states[i], needScore) && CalculatedMax(states[i]) > Ceiling(states[..i], needScore)
      then CalculatedMax(states[i]) else Ceiling(states[..i], needScore)
  {
    assert states[..i + 1][..i] == states[..i];
  }

  /** The loop that computes `maxPossibleScore`. */
  method MaxPossible(cards: seq<ScoreCard>, needScore: bool) returns (maxPossible: real)
    ensures maxPossible == MaxPossibleScore(States(cards), needScore)
  {
    ghost var states := States(cards);
    maxPossible := 0.0;
    for i := 0 to |cards|
      invariant maxPossible == Ceiling(states[..i], needScore)
    {
      CeilingStep(states, i, needScore);
      var s := cards[i].State();
      assert s == states[i];
      if s.matchPercentage > 0.0 && (!needScore || s.score > 0.0) {
        var calculatedMax := s.score / (s.matchPercentage / 100.0);
        assert calculatedMax == CalculatedMax(s);
        if calculatedMax > maxPossible {
          maxPossible := calculatedMax;
        }
      }
    }
    assert states[..|cards|] == states;
    if maxPossible <= 0.0 {
      maxPossible := 100.0;
    }
  }

  /** The setters a booster calls on one object. */
  method SetState(card: ScoreCard, s: CardState)
    modifies card
    ensures card.State() == s
  {
    card.score, card.matchPercentage, card.visibilityChance := s.score, s.matchPercentage, s.visibilityChance;
    card.chanceReason, card.boostDescription := s.chanceReason, s.boostDescription;
  }

  /** Cards that were not written keep their states. */
  twostate lemma StatesKept(cards: seq<ScoreCard>)
    requires forall k :: 0 <= k < |cards| ==> unchanged(cards[k])
    ensures States(cards) == old(States(cards))
  {
  }

  /** `Layer2_Boost_Result`, `Layer3_Boost_Result`, `Layer4_Boost_Result`:
      the three lists `BoostAll` returns. */
  datatype BoostResult = BoostResult(
    recommendedStars: seq<StarView>,
    recommendedPlanets: seq<PlanetView>,
    recommendedMoons: seq<MoonView>)

  /** `topPerType <= 0` falls back to 5. */
  function TopPerType(n: int): (r: int)
    ensures r > 0 && (n > 0 ==> r == n)
  {
    if n <= 0 then 5 else n
  }

  /** `BoostDescription` of the Layer 2 trend booster and the stand-alone
      Layer 3 booster, from the rounded boost percentage. */
  function BoostedBy(boostPercent: int): string {
    if boostPercent > 0 then "Boosted by " + Text.IntToString(boostPercent) + "%" else "No boost"
  }

  /** "No boost" exactly when the percentage is not positive; otherwise the
      text between "Boosted by " and "%" reads back as the percentage. */
  lemma BoostedByMeaning(boostPercent: int)
    ensures BoostedBy(boostPercent) == "No boost" <==> boostPercent <= 0
    ensures boostPercent > 0 ==>
      var d := BoostedBy(boostPercent);
      |d| > 12 && d[..11] == "Boosted by " && d[|d| - 1] == '%' &&
      Text.IsDigit(d[11]) && Text.ParseInt(d[11..|d| - 1]) == boostPercent
  {
    if boostPercent > 0 {
      var t := Text.IntToString(boostPercent);
      var d := BoostedBy(boostPercent);
      assert d == "Boosted by " + t + "%";
      assert d[11..|d| - 1] == t;
      assert d[..11] == "Boosted by ";
      assert d[0] == 'B' != "No boost"[0];
      Text.IntToStringRoundTrip(boostPercent);
    }
  }
}
