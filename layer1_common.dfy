/** What the four Layer 1 engines share: the card a visible object is given
    (score and match percentage rounded to cents, and the one weather
    verdict of the call), and the final `OrderByDescending(Score)`. */
module Layer1 {
  import opened Numerics
  import opened Sorting
  import opened Views

  /** The default `minAlt` of every engine constructor, in degrees. */
  const DefaultMinAltitude: real := 7.5

  /** The card a visible object leaves with: `Math.Round(score, 2)`, the
      match percentage `Math.Round(Math.Min(100, score / maxScore * 100), 2)`,
      `Math.Round(weatherChance, 2)` and the weather reason. */
  function Rated(raw: real, maxScore: real, chance: real, reason: string): (r: CardState)
    requires maxScore > 0.0
    ensures r.score == Round2(raw) && r.visibilityChance == Round2(chance) && r.chanceReason == reason
    ensures r.matchPercentage <= 100.0
    ensures raw >= 0.0 ==> r.score >= 0.0 && r.matchPercentage >= 0.0
  {
    Percentage(raw, maxScore);
    CardState(Round2(raw), Round2(Min(100.0, raw / maxScore * 100.0)), Round2(chance), reason, "")
  }

  /** The rounded, capped percentage never passes 100 and is not negative
      for a score that is not. */
  lemma Percentage(raw: real, maxScore: real)
    requires maxScore > 0.0
    ensures Round2(Min(100.0, raw / maxScore * 100.0)) <= 100.0
    ensures raw >= 0.0 ==> Round2(raw) >= 0.0 && Round2(Min(100.0, raw / maxScore * 100.0)) >= 0.0
  {
    assert IsCents(100.0) by { assert (100.0 * 100.0).Floor == 10000; }
    assert IsCents(0.0) by { assert (0.0 * 100.0).Floor == 0; }
    Round2AtMost(Min(100.0, raw / maxScore * 100.0), 100.0);
    if raw >= 0.0 {
      DivNonNegative(raw, maxScore);
      Round2AtLeast(raw, 0.0);
      Round2AtLeast(Min(100.0, raw / maxScore * 100.0), 0.0);
    }
  }

  /** The cards in the order `OrderByDescending(Score)` returns them. */
  function RankedStates(states: seq<CardState>): (r: seq<CardState>)
    ensures |r| == |states|
  {
    Pick(states, OrderDescending(Scores(states)))
  }

  /** The recommended list is a rearrangement of the visible objects'
      cards, highest score first. */
  lemma RankedStatesSpec(states: seq<CardState>)
    ensures multiset(RankedStates(states)) == multiset(states)
    ensures NonIncreasing(Scores(RankedStates(states)))
  {
    var order := OrderDescending(Scores(states));
    OrderDescendingSpec(Scores(states));
    PickPermutes(states, order);
    assert Scores(RankedStates(states)) == Pick(Scores(states), order);
  }

  /** The cards of the picked objects, in the pick's order, hold the picked
      states. */
  lemma StatesOfPick(cards: seq<ScoreCard>, order: seq<nat>)
    requires forall k :: 0 <= k < |order| ==> order[k] < |cards|
    ensures States(Pick(cards, order)) == Pick(States(cards), order)
  {
  }

  /** Picking increasing positions out of distinct cards gives distinct
      cards. */
  lemma PickDistinctCards(cards: seq<ScoreCard>, ids: seq<nat>)
    requires DistinctCards(cards) && Increasing(ids)
    requires forall k :: 0 <= k < |ids| ==> ids[k] < |cards|
    ensures DistinctCards(Pick(cards, ids))
  {
    forall p, q | 0 <= p < q < |ids| ensures cards[ids[p]] != cards[ids[q]] {
      assert ids[p] < ids[q];
    }
  }
}
