/** The helpers of the web back end's engine controller that turn what the
    engine returns into the rows the front end shows: `safeParseFloat`, which
    reads the first number out of a boost description, and the three result
    mappers. An absent (`undefined`) property of a record is `None`; the
    argument of `safeParseFloat` is `None` when it is `undefined` or `null`. */
module EngineController {
  import opened Wrappers
  import Text
  import Numerics
  import Boosting
  import NNBooster
  import MsiMatrixBooster
  import HaloBooster

  predicate IsSign(c: char) {
    c == '+' || c == '-'
  }

  /** A character no match of the number pattern can start at or run
      through: not a digit, a point or a sign. */
  predicate Plain(c: char) {
    !Text.IsDigit(c) && c != '.' && !IsSign(c)
  }

  /** The length of the run of digits starting at `j`. */
  function DigitRun(s: string, j: nat): (k: nat)
    requires j <= |s|
    ensures j + k <= |s|
    ensures forall i :: j <= i < j + k ==> Text.IsDigit(s[i])
    ensures j + k < |s| ==> !Text.IsDigit(s[j + k])
    decreases |s| - j
  {
    if j < |s| && Text.IsDigit(s[j]) then 1 + DigitRun(s, j + 1) else 0
  }

  /** Whether the first alternative of `([0-9]*\.[0-9]+|[0-9]+)` matches at
      `j`: the digits there, then a point, then at least one digit. */
  predicate FractionAt(s: string, j: nat)
    requires j <= |s|
  {
    var k := DigitRun(s, j);
    j + k + 1 < |s| && s[j + k] == '.' && Text.IsDigit(s[j + k + 1])
  }

  /** The length of what `([0-9]*\.[0-9]+|[0-9]+)` matches at `j`. Both
      repetitions are greedy, and backtracking cannot rescue the first
      alternative: a shorter digit run leaves a digit where the point must
      be. */
  function GroupAt(s: string, j: nat): (r: Option<nat>)
    requires j <= |s|
    ensures r.Some? ==> 0 < r.value && j + r.value <= |s|
  {
    var k := DigitRun(s, j);
    if FractionAt(s, j) then Some(k + 1 + DigitRun(s, j + k + 1))
    else if k > 0 then Some(k)
    else None
  }

  /** The end of the match of `[-+]?([0-9]*\.[0-9]+|[0-9]+)` that starts at
      `i`, if any: the sign is taken when the group matches after it. */
  function MatchAt(s: string, i: nat): (r: Option<nat>)
    requires i < |s|
    ensures r.Some? ==> i < r.value <= |s|
  {
    if IsSign(s[i]) && GroupAt(s, i + 1).Some? then Some(i + 1 + GroupAt(s, i + 1).value)
    else
      match GroupAt(s, i)
      case None => None
      case Some(n) => Some(i + n)
  }

  /** `String.prototype.match` with that pattern (no `g` flag): the leftmost
      match at or after `from`, as its start and end. */
  function FirstMatch(s: string, from: nat): (r: Option<(nat, nat)>)
    requires from <= |s|
    ensures r.Some? ==> from <= r.value.0 < |s| && MatchAt(s, r.value.0) == Some(r.value.1)
    ensures r.Some? ==> forall i :: from <= i < r.value.0 ==> MatchAt(s, i).None?
    ensures r.None? ==> forall i :: from <= i < |s| ==> MatchAt(s, i).None?
    decreases |s| - from
  {
    if from == |s| then None
    else
      match MatchAt(s, from)
      case Some(e) => Some((from, e))
      case None => FirstMatch(s, from + 1)
  }

  /** `parseFloat` of the group matched at `j`: its whole digits plus its
      fraction digits. */
  function GroupValue(s: string, j: nat): real
    requires j <= |s|
  {
    var k := DigitRun(s, j);
    var whole := Text.ParseDigits(s[j..j + k]) as real;
    if FractionAt(s, j) then whole + Text.FractionValue(s[j + k + 1..j + k + 1 + DigitRun(s, j + k + 1)])
    else whole
  }

  /** `parseFloat` of the match starting at `i`, its sign included. */
  function MatchValue(s: string, i: nat): real
    requires i < |s|
  {
    if IsSign(s[i]) && GroupAt(s, i + 1).Some? then
      (if s[i] == '-' then -GroupValue(s, i + 1) else GroupValue(s, i + 1))
    else GroupValue(s, i)
  }

  /** `safeParseFloat(val)` for a string or missing value. */
  function SafeParseFloat(val: Option<string>): real {
    if val.None? || val.value == "" then 0.0
    else
      match FirstMatch(val.value, 0)
      case None => 0.0
      case Some(m) => MatchValue(val.value, m.0)
  }

  /** A match exists exactly when the text holds a digit. */
  lemma MatchIffDigit(s: string)
    ensures FirstMatch(s, 0).Some? <==> exists d :: 0 <= d < |s| && Text.IsDigit(s[d])
  {
    if d :| 0 <= d < |s| && Text.IsDigit(s[d]) {
      assert DigitRun(s, d) > 0;
      assert MatchAt(s, d).Some?;
    }
    if FirstMatch(s, 0).Some? {
      var i := FirstMatch(s, 0).value.0;
      if IsSign(s[i]) && GroupAt(s, i + 1).Some? {
        GroupHasDigit(s, i + 1);
      } else {
        GroupHasDigit(s, i);
      }
    }
  }

  /** Whatever the group matches holds a digit. */
  lemma GroupHasDigit(s: string, j: nat)
    requires j <= |s| && GroupAt(s, j).Some?
    ensures exists d :: j <= d < |s| && Text.IsDigit(s[d])
  {
    var k := DigitRun(s, j);
    if FractionAt(s, j) {
      assert Text.IsDigit(s[j + k + 1]);
    } else {
      assert Text.IsDigit(s[j]);
    }
  }

  /** A falsy value, or a text without a digit, reads as 0. */
  lemma NoNumberIsZero(val: Option<string>)
    requires val.None? || forall i :: 0 <= i < |val.value| ==> !Text.IsDigit(val.value[i])
    ensures SafeParseFloat(val) == 0.0
  {
    if val.Some? {
      MatchIffDigit(val.value);
    }
  }

  /** The digit run starting at `j` is exactly `k` long when `k` digits are
      followed by a non-digit or by the end. */
  lemma RunIs(s: string, j: nat, k: nat)
    requires j + k <= |s|
    requires forall i :: j <= i < j + k ==> Text.IsDigit(s[i])
    requires j + k < |s| ==> !Text.IsDigit(s[j + k])
    ensures DigitRun(s, j) == k
  {
    var r := DigitRun(s, j);
    assert r <= k by {
      assert j + k < |s| ==> !Text.IsDigit(s[j + k]);
    }
    assert r >= k by {
      assert j + r < |s| ==> !Text.IsDigit(s[j + r]);
    }
  }

  /** A run of digits from `a` to `b`, not followed by a digit or a point,
      is matched whole by the second alternative. */
  lemma WholeGroup(s: string, a: nat, b: nat)
    requires a < b <= |s| && forall i :: a <= i < b ==> Text.IsDigit(s[i])
    requires b < |s| ==> !Text.IsDigit(s[b]) && s[b] != '.'
    ensures GroupAt(s, a) == Some(b - a)
    ensures GroupValue(s, a) == Text.ParseDigits(s[a..b]) as real
  {
    RunIs(s, a, b - a);
  }

  /** Digits from `a` to `p`, a point, and at least one digit up to `b`,
      not followed by a digit, are matched whole by the first
      alternative. */
  lemma FractionGroup(s: string, a: nat, p: nat, b: nat)
    requires a <= p && p + 1 < b <= |s| && s[p] == '.'
    requires forall i :: a <= i < p ==> Text.IsDigit(s[i])
    requires forall i :: p < i < b ==> Text.IsDigit(s[i])
    requires b < |s| ==> !Text.IsDigit(s[b])
    ensures GroupAt(s, a) == Some(b - a)
    ensures GroupValue(s, a) == Text.ParseDigits(s[a..p]) as real + Text.FractionValue(s[p + 1..b])
  {
    RunIs(s, a, p - a);
    assert a + DigitRun(s, a) == p;
    assert Text.IsDigit(s[p + 1]);
    assert FractionAt(s, a);
    RunIs(s, p + 1, b - (p + 1));
    assert p + 1 + DigitRun(s, p + 1) == b;
  }

  /** A decimal text in `s[a..b]` that is not followed by a digit or a
      point is matched whole by the group, and reads as its value. */
  lemma DecimalGroup(s: string, a: nat, b: nat)
    requires a < b <= |s| && Text.IsDecimalText(s[a..b])
    requires b < |s| ==> !Text.IsDigit(s[b]) && s[b] != '.'
    ensures GroupAt(s, a) == Some(b - a)
    ensures GroupValue(s, a) == Text.ParseDecimal(s[a..b])
  {
    var t := s[a..b];
    var p := Text.PointAt(t);
    Text.DecimalTextParts(t);
    if p == |t| {
      WholeDecimal(s, a, b);
      assert t[..p] == t;
    } else {
      PointedDecimal(s, a, a + p, b);
    }
  }

  /** `DecimalGroup` for a decimal text without a point. */
  lemma WholeDecimal(s: string, a: nat, b: nat)
    requires a < b <= |s|
    requires forall i :: 0 <= i < b - a ==> Text.IsDigit(s[a..b][i])
    requires b < |s| ==> !Text.IsDigit(s[b]) && s[b] != '.'
    ensures GroupAt(s, a) == Some(b - a)
    ensures GroupValue(s, a) == Text.ParseDigits(s[a..b]) as real
  {
    forall i | a <= i < b ensures Text.IsDigit(s[i]) {
      assert s[i] == s[a..b][i - a];
    }
    WholeGroup(s, a, b);
  }

  /** `DecimalGroup` for a decimal text with its point at `p`. */
  lemma PointedDecimal(s: string, a: nat, p: nat, b: nat)
    requires a < p && p + 1 < b <= |s| && s[p] == '.'
    requires forall i :: 0 <= i < b - a && i != p - a ==> Text.IsDigit(s[a..b][i])
    requires b < |s| ==> !Text.IsDigit(s[b])
    ensures GroupAt(s, a) == Some(b - a)
    ensures GroupValue(s, a) == Text.ParseDigits(s[a..b][..p - a]) as real + Text.FractionValue(s[a..b][p - a + 1..])
  {
    forall i | a <= i < b && i != p ensures Text.IsDigit(s[i]) {
      assert s[i] == s[a..b][i - a];
    }
    FractionGroup(s, a, p, b);
    assert s[a..p] == s[a..b][..p - a];
    assert s[p + 1..b] == s[a..b][p - a + 1..];
  }

  /** Before `a` nothing can start a match. */
  lemma NoMatchBefore(s: string, a: nat)
    requires a <= |s| && forall i :: 0 <= i < a ==> Plain(s[i])
    ensures forall i :: 0 <= i < a ==> MatchAt(s, i).None?
  {
    forall i | 0 <= i < a ensures MatchAt(s, i).None? {
      RunIs(s, i, 0);
    }
  }

  /** The leftmost match is the first position that matches. */
  lemma FirstMatchIs(s: string, from: nat, a: nat, b: nat)
    requires from <= a < |s| && MatchAt(s, a) == Some(b)
    requires forall i :: from <= i < a ==> MatchAt(s, i).None?
    ensures FirstMatch(s, from) == Some((a, b))
  {
    var r := FirstMatch(s, from);
    assert r.Some?;
    assert r.value.0 == a;
  }

  /** A decimal text after plain characters, and followed by something
      other than a digit or a point, is the number `safeParseFloat` reads. */
  lemma ReadsDecimal(pre: string, t: string, post: string)
    requires forall i :: 0 <= i < |pre| ==> Plain(pre[i])
    requires Text.IsDecimalText(t)
    requires post != [] ==> !Text.IsDigit(post[0]) && post[0] != '.'
    ensures SafeParseFloat(Some(pre + t + post)) == Text.ParseDecimal(t)
  {
    var s := pre + t + post;
    var a, b := |pre|, |pre| + |t|;
    assert s[a..b] == t;
    assert forall i :: 0 <= i < a ==> s[i] == pre[i];
    assert b < |s| ==> s[b] == post[0];
    DecimalGroup(s, a, b);
    NoMatchBefore(s, a);
    assert s[a] == t[0];
    FirstMatchIs(s, 0, a, b);
  }

  /** A decimal text right after a leading '+' reads as its value. */
  lemma ReadsSignedDecimal(t: string, post: string)
    requires Text.IsDecimalText(t)
    requires post != [] ==> !Text.IsDigit(post[0]) && post[0] != '.'
    ensures SafeParseFloat(Some("+" + t + post)) == Text.ParseDecimal(t)
  {
    var s := "+" + t + post;
    var b := 1 + |t|;
    assert s[1..b] == t;
    assert b < |s| ==> s[b] == post[0];
    DecimalGroup(s, 1, b);
    FirstMatchIs(s, 0, 0, b);
  }

  /** The first example of the helper's own comment: "2.5%" reads as 2.5. */
  lemma PercentExample()
    ensures SafeParseFloat(Some("2.5%")) == 2.5
  {
    var s := "2.5%";
    FractionGroup(s, 0, 1, 3);
    assert FirstMatch(s, 0) == Some((0, 3));
    assert s[0..1] == "2" && s[2..3] == "5";
    assert Text.ParseDigits("2") == 2 && Text.ParseDigits("5") == 5 && Text.Pow10(1) == 10;
  }

  /** The second example: "Boosted: 10" reads as 10. */
  lemma LabelExample()
    ensures SafeParseFloat(Some("Boosted: 10")) == 10.0
  {
    PlainLabel();
    Text.WholeText("10");
    ReadsDecimal("Boosted: ", "10", []);
    assert "Boosted: " + "10" + [] == "Boosted: 10";
    assert Text.ParseDigits("10") == 10 by {
      assert "10"[..1] == "1";
    }
  }

  lemma PlainLabel()
    ensures forall i :: 0 <= i < |"Boosted: "| ==> Plain("Boosted: "[i])
  {
  }

  /** A sign is part of the number: "-3 left" reads as -3. */
  lemma NegativeExample()
    ensures SafeParseFloat(Some("-3 left")) == -3.0
  {
    var s := "-3 left";
    RunIs(s, 1, 1);
    assert GroupAt(s, 1) == Some(1);
    assert FirstMatch(s, 0) == Some((0, 2));
    assert s[1..2] == "3";
  }

  /** A positive whole number, written in decimal, reads back as itself. */
  lemma WholeNumberText(n: int)
    requires n > 0
    ensures Text.IsDecimalText(Text.IntToString(n))
    ensures Text.ParseDecimal(Text.IntToString(n)) == n as real
  {
    Text.WholeText(Text.NatToString(n));
    Text.NatToStringRoundTrip(n);
  }

  /** What the front end shows as `Boost_Amount_Pct` for a Layer 2 trend or
      stand-alone Layer 3 description is the percentage the booster
      computed, or 0 for "No boost". */
  lemma BoostedByAmount(boostPercent: int)
    ensures SafeParseFloat(Some(Boosting.BoostedBy(boostPercent))) ==
      if boostPercent > 0 then boostPercent as real else 0.0
  {
    if boostPercent > 0 {
      WholeNumberText(boostPercent);
      PlainBoostedBy();
      ReadsDecimal("Boosted by ", Text.IntToString(boostPercent), "%");
    } else {
      NoBoostPlain();
      NoNumberIsZero(Some("No boost"));
    }
  }

  lemma PlainBoostedBy()
    ensures forall i :: 0 <= i < |"Boosted by "| ==> Plain("Boosted by "[i])
  {
  }

  lemma NoBoostPlain()
    ensures forall i :: 0 <= i < |"No boost"| ==> !Text.IsDigit("No boost"[i])
  {
  }

  /** The same for the Layer 4 description, with 0 for "No NN boost". */
  lemma NNBoostedByAmount(boostPercent: int)
    ensures SafeParseFloat(Some(NNBooster.NNBoostedBy(boostPercent))) ==
      if boostPercent > 0 then boostPercent as real else 0.0
  {
    if boostPercent > 0 {
      WholeNumberText(boostPercent);
      PlainNNBoostedBy();
      ReadsDecimal("NN Boosted by ", Text.IntToString(boostPercent), "%");
    } else {
      NoNNBoostPlain();
      NoNumberIsZero(Some("No NN boost"));
    }
  }

  lemma PlainNNBoostedBy()
    ensures forall i :: 0 <= i < |"NN Boosted by "| ==> Plain("NN Boosted by "[i])
  {
  }

  lemma NoNNBoostPlain()
    ensures forall i :: 0 <= i < |"No NN boost"| ==> !Text.IsDigit("No NN boost"[i])
  {
  }

  /** The cloud Layer 3 description "+X% Personalized" reads as the rise
      rounded to one decimal, and "0" as 0. */
  lemma PersonalizedAmount(pointsAdded: real)
    ensures SafeParseFloat(Some(MsiMatrixBooster.Description(pointsAdded))) ==
      if pointsAdded > 0.001 then Numerics.Round1(pointsAdded) else 0.0
  {
    MsiMatrixBooster.DescriptionMeaning(pointsAdded);
    var d := MsiMatrixBooster.Description(pointsAdded);
    if pointsAdded > 0.001 {
      var t := d[1..|d| - 14];
      assert d == "+" + t + "% Personalized";
      ReadsSignedDecimal(t, "% Personalized");
    } else {
      Text.ZeroText();
      assert "0" == [] + "0" + [];
      ReadsDecimal([], "0", []);
    }
  }

  /** The cloud Layer 2 description reads as the rise rounded to two
      decimals when it exceeds 0.01, and as 0 otherwise. */
  lemma HaloAmount(newPct: real, originalPct: real)
    ensures SafeParseFloat(Some(HaloBooster.Description(newPct, originalPct))) ==
      if newPct - originalPct > 0.01 then Numerics.Round2(newPct - originalPct) else 0.0
  {
    HaloBooster.DescriptionMeaning(newPct, originalPct);
    var d := HaloBooster.Description(newPct, originalPct);
    if newPct - originalPct <= 0.01 {
      Text.ZeroText();
    }
    assert d == [] + d + [];
    ReadsDecimal([], d, []);
  }

  /** The nested catalogue object of a Layer 1-4 view (`star`, `planet` or
      `moon`), with the fields the mappers read: id, name, and the spectral
      type or planet type. */
  datatype CatalogueRef = CatalogueRef(id: Option<string>, name: Option<string>, category: Option<string>)

  /** One result record as the engine serialises it, camel-cased: a Layer 5
      record carries `layer5_FinalRank`, a Layer 1-4 view does not. */
  datatype EngineRecord = EngineRecord(
    layer5FinalRank: Option<int>,
    layer5FinalScore: Option<real>,
    objectId: Option<string>,
    objectName: Option<string>,
    spectralType: Option<string>,
    planetType: Option<string>,
    parent: Option<string>,
    nested: Option<CatalogueRef>,
    altitude: Option<real>,
    azimuth: Option<real>,
    isVisible: Option<bool>,
    score: Option<real>,
    matchPercentage: Option<real>,
    gaSummary: Option<string>,
    boostDescription: Option<string>,
    visibilityChance: Option<real>,
    chanceReason: Option<string>)

  /** The flat row the front end receives (`Star_ID`/`Planet_ID`/`Moon_ID`,
      the name, the spectral type, planet type or parent planet, and the
      shared columns). */
  datatype ResultRow = ResultRow(
    id: Option<string>,
    name: Option<string>,
    category: Option<string>,
    altitude: Option<real>,
    azimuth: Option<real>,
    isVisible: Option<bool>,
    matchScore: Option<real>,
    matchPercentage: Option<real>,
    gaRank: Option<int>,
    rankSummary: Option<string>,
    boostAmountPct: real,
    weatherChance: Option<real>,
    weatherExplanation: Option<string>)

  /** `x.layer5_FinalRank !== undefined`. */
  predicate IsLayer5(r: EngineRecord) {
    r.layer5FinalRank.Some?
  }

  /** `x.star?.id`, `x.planet?.name`, ...: missing when the nested object is. */
  function NestedId(r: EngineRecord): Option<string> {
    if r.nested.Some? then r.nested.value.id else None
  }

  function NestedName(r: EngineRecord): Option<string> {
    if r.nested.Some? then r.nested.value.name else None
  }

  function NestedCategory(r: EngineRecord): Option<string> {
    if r.nested.Some? then r.nested.value.category else None
  }

  /** The columns the three mappers share; `category` is the column that
      differs between them. */
  function MapResult(r: EngineRecord, category: Option<string>): (row: ResultRow)
    ensures IsLayer5(r) ==> row.id == r.objectId && row.name == r.objectName
    ensures !IsLayer5(r) ==> row.id == NestedId(r) && row.name == NestedName(r)
    ensures IsLayer5(r) ==>
      row.gaRank == Some(r.layer5FinalRank.value + 1) && row.matchScore == r.layer5FinalScore &&
      row.rankSummary == r.gaSummary && row.boostAmountPct == 0.0
    ensures !IsLayer5(r) ==>
      row.gaRank.None? && row.matchScore == r.score && row.rankSummary == Some("Standard Ranking") &&
      row.boostAmountPct == SafeParseFloat(r.boostDescription)
    ensures row.category == category && row.altitude == r.altitude && row.azimuth == r.azimuth
    ensures row.isVisible == r.isVisible && row.matchPercentage == r.matchPercentage
    ensures row.weatherChance == r.visibilityChance && row.weatherExplanation == r.chanceReason
  {
    var l5 := IsLayer5(r);
    ResultRow(
      if l5 then r.objectId else NestedId(r),
      if l5 then r.objectName else NestedName(r),
      category,
      r.altitude,
      r.azimuth,
      r.isVisible,
      if l5 then r.layer5FinalScore else r.score,
      r.matchPercentage,
      if l5 then Some(r.layer5FinalRank.value + 1) else None,
      if l5 then r.gaSummary else Some("Standard Ranking"),
      if l5 then 0.0 else SafeParseFloat(r.boostDescription),
      r.visibilityChance,
      r.chanceReason)
  }

  /** `mapStarResult`: the spectral type comes from the record itself for
      Layer 5 and from the nested star otherwise. */
  function MapStarResult(s: EngineRecord): (row: ResultRow)
    ensures row.category == (if IsLayer5(s) then s.spectralType else NestedCategory(s))
  {
    MapResult(s, if IsLayer5(s) then s.spectralType else NestedCategory(s))
  }

  /** `mapPlanetResult`: the planet type, likewise. */
  function MapPlanetResult(p: EngineRecord): (row: ResultRow)
    ensures row.category == (if IsLayer5(p) then p.planetType else NestedCategory(p))
  {
    MapResult(p, if IsLayer5(p) then p.planetType else NestedCategory(p))
  }

  /** `mapMoonResult`: the parent planet is read from the record in both
      cases. */
  function MapMoonResult(m: EngineRecord): (row: ResultRow)
    ensures row.category == m.parent
  {
    MapResult(m, m.parent)
  }

  /** A fused list whose final ranks are the positions 0..n-1, as Layer 5
      assigns them, is shown ranked 1..n, in order, with no boost amount. */
  lemma FusedRanksFromOne(rows: seq<EngineRecord>)
    requires forall k :: 0 <= k < |rows| ==> rows[k].layer5FinalRank == Some(k)
    ensures forall k :: 0 <= k < |rows| ==>
      var row := MapStarResult(rows[k]);
      row.gaRank == Some(k + 1) && 1 <= row.gaRank.value <= |rows| && row.boostAmountPct == 0.0
  {
  }

  /** A Layer 1-4 view whose description the trend or stand-alone matrix
      booster wrote shows the booster's percentage as its boost amount, and
      no GA rank. */
  lemma BoostedViewRow(r: EngineRecord, boostPercent: int)
    requires !IsLayer5(r) && r.boostDescription == Some(Boosting.BoostedBy(boostPercent))
    ensures MapStarResult(r).gaRank.None?
    ensures MapStarResult(r).boostAmountPct == if boostPercent > 0 then boostPercent as real else 0.0
  {
    BoostedByAmount(boostPercent);
  }
}
