/** `VisibilityCalculator` (WeatherChecker.cs): the chance, from 0 to 100,
    that the sky will be clear enough to observe, from an hourly forecast of
    cloud cover (percent), precipitation (mm/h) and, when present, wind
    speed (km/h). Every processed hour starts at 1 and is multiplied by a
    precipitation factor, a cloud penalty, a wind penalty and a combined
    rain-and-cloud penalty; the hours are averaged with weights that fall
    from 1 by 0.05 an hour down to 0.5. A reason is chosen by bands of the
    chance. The HTTP request is not modelled: its response is a parameter. */
module Weather {
  import opened Numerics
  import opened Wrappers
  import opened Views

  /** The `hourly` arrays of the forecast; `windspeed_10m` may be absent.
      The cloud-cover and precipitation arrays are always present and every
      entry is a number. */
  datatype Forecast = Forecast(cloudcover: seq<real>, precipitation: seq<real>, windspeed: Option<seq<real>>)

  /** The wind speed of hour `i`: 0 when the forecast has no wind data or
      its wind list has run out. */
  function WindAt(f: Forecast, i: nat): real {
    if f.windspeed.Some? && i < |f.windspeed.value| then f.windspeed.value[i] else 0.0
  }

  /** How many hours the loop processes: it stops when either list runs out
      or after `hours` hours. */
  function ProcessedHours(f: Forecast, hours: int): (n: nat)
    ensures n <= |f.cloudcover| && n <= |f.precipitation| && n as int <= Max0(hours)
    ensures n == |f.cloudcover| || n == |f.precipitation| || n as int == Max0(hours)
  {
    var m := if |f.cloudcover| < |f.precipitation| then |f.cloudcover| else |f.precipitation|;
    if hours < m then Max0(hours) else m
  }

  function Max0(n: int): (r: nat)
    ensures r as int >= n
  {
    if n < 0 then 0 else n
  }

  /** `timeWeight`: 1 for the first hour, 0.05 less for each later hour,
      never below 0.5. */
  function TimeWeight(i: nat): (r: real)
    ensures 0.5 <= r <= 1.0
    ensures r == Max(0.5, 1.0 - i as real * 0.05)
  {
    var w := 1.0 - i as real * 0.05;
    if w < 0.5 then 0.5 else w
  }

  /** The precipitation multiplier, by band. */
  function PrecipFactor(precip: real): real {
    if precip > 0.0 then
      if precip <= 0.5 then 0.75
      else if precip <= 2.5 then 0.40
      else if precip <= 7.5 then 0.15
      else 0.05
    else 1.0
  }

  /** The precipitation factor lies in `[0.05, 1]`, is 1 exactly for a dry
      hour, and never rises with more rain. */
  lemma PrecipFactorBands(p: real, q: real)
    ensures 0.05 <= PrecipFactor(p) <= 1.0
    ensures PrecipFactor(p) == 1.0 <==> p <= 0.0
    ensures p <= q ==> PrecipFactor(q) <= PrecipFactor(p)
  {
  }

  /** The cloud multiplier: applied only above the threshold, and never
      below 0.1. */
  function CloudFactor(cloud: real, threshold: int): real {
    if cloud > threshold as real then
      var over := cloud - threshold as real;
      var penalty :=
        if cloud < 50.0 then 0.85 - over / 100.0 * 0.5
        else if cloud < 75.0 then 0.70 - (cloud - 50.0) / 100.0 * 0.4
        else 0.40 - (cloud - 75.0) / 100.0 * 0.3;
      Max(0.1, penalty)
    else 1.0
  }

  /** The cloud factor is 1 up to the threshold; above it, it lies in
      `[0.1, 0.85]`. */
  lemma CloudFactorBands(cloud: real, threshold: int)
    ensures cloud <= threshold as real ==> CloudFactor(cloud, threshold) == 1.0
    ensures cloud > threshold as real ==> 0.1 <= CloudFactor(cloud, threshold) <= 0.85
  {
  }

  /** The wind multiplier: above 30 km/h, one percent less for each km/h
      over, never below 0.85. */
  function WindFactor(wind: real): real {
    if wind > 30.0 then Max(0.85, 1.0 - (wind - 30.0) / 100.0) else 1.0
  }

  lemma WindFactorBands(wind: real)
    ensures wind <= 30.0 ==> WindFactor(wind) == 1.0
    ensures 0.85 <= WindFactor(wind) <= 1.0
  {
  }

  /** The combined penalty for rain under heavy cloud. */
  function ComboFactor(precip: real, cloud: real): real {
    if precip > 0.0 && cloud > 60.0 then 0.85 else 1.0
  }

  function Mul(a: real, b: real): real { a * b }

  /** The score of one hour: the four factors multiplied, clamped to
      `[0, 1]`. */
  function HourScore(cloud: real, precip: real, wind: real, threshold: int): (r: real)
    ensures 0.0 <= r <= 1.0
  {
    var score := Mul(Mul(Mul(1.0 * PrecipFactor(precip), CloudFactor(cloud, threshold)), WindFactor(wind)),
                     ComboFactor(precip, cloud));
    Max(0.0, Min(1.0, score))
  }

  /** A clear hour, dry, at most at the cloud threshold and with wind of at
      most 30 km/h, scores 1. */
  lemma ClearHourScoresOne(cloud: real, precip: real, wind: real, threshold: int)
    requires precip <= 0.0 && cloud <= threshold as real && wind <= 30.0
    ensures HourScore(cloud, precip, wind, threshold) == 1.0
  {
    PrecipFactorBands(precip, precip);
    CloudFactorBands(cloud, threshold);
    WindFactorBands(wind);
  }

  /** The score of hour `i` of the forecast. */
  function ScoreOfHour(f: Forecast, threshold: int, i: nat): (r: real)
    requires i < |f.cloudcover| && i < |f.precipitation|
    ensures 0.0 <= r <= 1.0
  {
    HourScore(f.cloudcover[i], f.precipitation[i], WindAt(f, i), threshold)
  }

  /** `totalScore` and `totalWeight` after the first `n` hours. */
  function Totals(f: Forecast, threshold: int, n: nat): (r: (real, real))
    requires n <= |f.cloudcover| && n <= |f.precipitation|
    ensures 0.0 <= r.0 <= r.1 && r.1 >= 0.5 * n as real
  {
    if n == 0 then (0.0, 0.0)
    else
      var prev := Totals(f, threshold, n - 1);
      var w := TimeWeight(n - 1);
      var s := ScoreOfHour(f, threshold, n - 1);
      WeightedWithin(s, w);
      AddHour(prev, s, w)
  }

  /** A score in `[0, 1]` times a positive weight is at most the weight. */
  lemma WeightedWithin(s: real, w: real)
    requires 0.0 <= s <= 1.0 && w > 0.0
    ensures 0.0 <= Mul(s, w) <= w
  {
    MulMonotone(w, s, 1.0);
    MulMonotone(w, 0.0, s);
  }

  /** `chance`: the weighted mean of the hour scores, as a percentage, or 0
      when no hour was processed. */
  function ChanceOf(totals: (real, real)): real {
    if totals.1 == 0.0 then 0.0 else totals.0 / totals.1 * 100.0
  }

  /** The chance lies in `[0, 100]`; it is 0 when no hour is processed. */
  lemma ChanceBounds(f: Forecast, threshold: int, n: nat)
    requires n <= |f.cloudcover| && n <= |f.precipitation|
    ensures 0.0 <= ChanceOf(Totals(f, threshold, n)) <= 100.0
    ensures n == 0 ==> ChanceOf(Totals(f, threshold, n)) == 0.0
  {
    MeanPercent(Totals(f, threshold, n));
  }

  /** A weighted mean of scores in `[0, 1]` is a percentage, and is 100
      exactly when every hour scored 1. */
  lemma MeanPercent(t: (real, real))
    requires 0.0 <= t.0 <= t.1
    ensures 0.0 <= ChanceOf(t) <= 100.0
    ensures t.1 > 0.0 && t.0 == t.1 ==> ChanceOf(t) == 100.0
  {
    if t.1 != 0.0 {
      DivMonotone(t.0, t.1, t.1);
      DivNonNegative(t.0, t.1);
      assert t.1 > 0.0;
      DivSelf(t.1);
    }
  }

  lemma DivSelf(x: real)
    requires x > 0.0
    ensures x / x == 1.0
  {
  }

  /** When every processed hour is clear the chance is exactly 100, as long
      as at least one hour is processed. */
  lemma ClearSkiesFullChance(f: Forecast, threshold: int, n: nat)
    requires 0 < n <= |f.cloudcover| && n <= |f.precipitation|
    requires forall i :: 0 <= i < n ==>
      f.precipitation[i] <= 0.0 && f.cloudcover[i] <= threshold as real && WindAt(f, i) <= 30.0
    ensures ChanceOf(Totals(f, threshold, n)) == 100.0
  {
    ClearTotals(f, threshold, n);
    MeanPercent(Totals(f, threshold, n));
  }

  lemma {:induction false} ClearTotals(f: Forecast, threshold: int, n: nat)
    requires n <= |f.cloudcover| && n <= |f.precipitation|
    requires forall i :: 0 <= i < n ==>
      f.precipitation[i] <= 0.0 && f.cloudcover[i] <= threshold as real && WindAt(f, i) <= 30.0
    ensures Totals(f, threshold, n).0 == Totals(f, threshold, n).1
  {
    if n > 0 {
      ClearTotals(f, threshold, n - 1);
      ClearHourScoresOne(f.cloudcover[n - 1], f.precipitation[n - 1], WindAt(f, n - 1), threshold);
    }
  }

  /** The counters the loop keeps for the reason. */
  datatype Tally = Tally(hoursCloudy: nat, hoursLightRain: nat, hoursHeavyRain: nat, hoursHighWind: nat,
                         maxPrecip: real, cloudSum: real)

  /** The counters after the first `n` hours. An hour counts as cloudy at
      the threshold itself, although its penalty starts only above it. */
  function TallyOf(f: Forecast, threshold: int, n: nat): (r: Tally)
    requires n <= |f.cloudcover| && n <= |f.precipitation|
    ensures r.hoursCloudy <= n && r.hoursLightRain + r.hoursHeavyRain <= n && r.hoursHighWind <= n
    ensures r.maxPrecip >= 0.0
  {
    if n == 0 then Tally(0, 0, 0, 0, 0.0, 0.0)
    else CountHour(TallyOf(f, threshold, n - 1), f.cloudcover[n - 1], f.precipitation[n - 1], WindAt(f, n - 1), threshold)
  }

  /** The counters after one more hour. */
  function CountHour(t: Tally, cloud: real, precip: real, wind: real, threshold: int): (r: Tally)
    ensures r.hoursCloudy <= t.hoursCloudy + 1 && r.hoursHighWind <= t.hoursHighWind + 1
    ensures r.hoursLightRain + r.hoursHeavyRain <= t.hoursLightRain + t.hoursHeavyRain + 1
    ensures r.maxPrecip >= t.maxPrecip
  {
    Tally(t.hoursCloudy + (if cloud >= threshold as real then 1 else 0),
          t.hoursLightRain + (if precip > 0.0 && precip <= 2.5 then 1 else 0),
          t.hoursHeavyRain + (if precip > 2.5 then 1 else 0),
          t.hoursHighWind + (if wind > 30.0 then 1 else 0),
          if precip > t.maxPrecip then precip else t.maxPrecip,
          t.cloudSum + cloud)
  }

  lemma TotalsStep(f: Forecast, threshold: int, i: nat)
    requires i < |f.cloudcover| && i < |f.precipitation|
    ensures Totals(f, threshold, i + 1) == AddHour(Totals(f, threshold, i), ScoreOfHour(f, threshold, i), TimeWeight(i))
  {
  }

  lemma TallyStep(f: Forecast, threshold: int, i: nat)
    requires i < |f.cloudcover| && i < |f.precipitation|
    ensures TallyOf(f, threshold, i + 1)
            == CountHour(TallyOf(f, threshold, i), f.cloudcover[i], f.precipitation[i], WindAt(f, i), threshold)
  {
  }

  /** The running totals after one more hour of score `s` and weight `w`. */
  function AddHour(t: (real, real), s: real, w: real): (real, real) {
    (t.0 + Mul(s, w), t.1 + w)
  }

  /** The counters say what the hours were: the maximum precipitation is
      reached by some hour (or is 0) and bounds every hour; all hours dry
      means no rain hours. */
  lemma {:induction false} TallySpec(f: Forecast, threshold: int, n: nat)
    requires n <= |f.cloudcover| && n <= |f.precipitation|
    ensures forall i :: 0 <= i < n ==> f.precipitation[i] <= TallyOf(f, threshold, n).maxPrecip
    ensures TallyOf(f, threshold, n).maxPrecip == 0.0 ||
            exists i :: 0 <= i < n && f.precipitation[i] == TallyOf(f, threshold, n).maxPrecip
    ensures (forall i :: 0 <= i < n ==> f.precipitation[i] <= 0.0) ==>
            TallyOf(f, threshold, n).hoursLightRain == 0 && TallyOf(f, threshold, n).hoursHeavyRain == 0
  {
    if n > 0 {
      TallySpec(f, threshold, n - 1);
      var t := TallyOf(f, threshold, n - 1);
      var r := TallyOf(f, threshold, n);
      if f.precipitation[n - 1] <= t.maxPrecip {
        assert r.maxPrecip == t.maxPrecip;
        if t.maxPrecip != 0.0 {
          var j :| 0 <= j < n - 1 && f.precipitation[j] == t.maxPrecip;
          assert f.precipitation[j] == r.maxPrecip;
        }
      }
    }
  }

  /** `avgCloud`: the mean cloud cover of the processed hours, or 0. */
  function AverageCloud(t: Tally, processed: nat): real {
    if processed > 0 then t.cloudSum / processed as real else 0.0
  }

  /** The reason strings, by band; each carries the numbers its text
      interpolates. */
  datatype Reason =
    | Exceptional                                  // "Exceptional viewing conditions! ..."
    | MostlyClear                                  // "Great visibility expected with mostly clear skies."
    | GoodWithClouds(hoursCloudy: nat)             // "Good conditions overall, though some clouds ({h}h) ..."
    | Favorable                                    // "Good visibility expected with favorable weather."
    | Mixed(rainHours: nat, hoursCloudy: nat)      // "Mixed conditions with {r}h of rain and {c}h of clouds. ..."
    | FairWithRain(rainHours: nat)                 // "Fair conditions, but expect some rain ({r}h) ..."
    | PartlyCloudy(hoursCloudy: nat)               // "Partly cloudy skies ({c}h) ..."
    | HeavyRain(heavyHours: nat, upTo: Option<real>) // "Challenging conditions with {h}h of heavy rain[ (up to {m:F1}mm/h)]. ..."
    | PersistentRain(rainHours: nat)               // "Poor visibility likely due to persistent rain ({r}h) ..."
    | ExtensiveCloud(hoursCloudy: nat)             // "Difficult viewing conditions with extensive cloud cover ({c}h) ..."
    | Storms(heavyHours: nat, maxPrecip: real)     // "Very poor conditions. Heavy rain expected for {h}h ... (max {m:F1}mm/h). ..."
    | Unfavorable(rainHours: nat, hoursCloudy: nat) // "Unfavorable weather: near-constant rain ({r}h) and thick cloud cover ({c}h). ..."
    | VeryCloudy(avgCloud: real)                   // "Very cloudy conditions (avg {a:F0}% cover) ..."
    | Poor(rainHours: nat, hoursCloudy: nat)       // "Poor conditions with {r}h of rain and {c}h of heavy clouds. ..."

  /** `GenerateDetailedReason`. `totalHours` is the `hours` field, not the
      number of hours processed. */
  function DetailedReason(totalHours: int, t: Tally, avgCloud: real, chance: real): Reason {
    var rain := t.hoursLightRain + t.hoursHeavyRain;
    var h := totalHours as real;
    if chance >= 85.0 then
      if avgCloud < 20.0 then Exceptional else MostlyClear
    else if chance >= 70.0 then
      if t.hoursCloudy > 0 then GoodWithClouds(t.hoursCloudy) else Favorable
    else if chance >= 50.0 then
      if rain > 0 && t.hoursCloudy as real > h * 0.5 then Mixed(rain, t.hoursCloudy)
      else if rain > 0 then FairWithRain(rain)
      else PartlyCloudy(t.hoursCloudy)
    else if chance >= 30.0 then
      if t.hoursHeavyRain > 0 then HeavyRain(t.hoursHeavyRain, if t.maxPrecip > 7.5 then Some(t.maxPrecip) else None)
      else if rain as real >= h * 0.6 then PersistentRain(rain)
      else ExtensiveCloud(t.hoursCloudy)
    else if t.hoursHeavyRain as real >= h * 0.4 then Storms(t.hoursHeavyRain, t.maxPrecip)
    else if rain as real >= h * 0.7 && t.hoursCloudy as real >= h * 0.8 then Unfavorable(rain, t.hoursCloudy)
    else if avgCloud > 85.0 then VeryCloudy(avgCloud)
    else Poor(rain, t.hoursCloudy)
  }

  /** The band a reason belongs to: 4 excellent, 3 good, 2 fair, 1 poor,
      0 very poor. */
  function ReasonBand(r: Reason): nat {
    match r
    case Exceptional | MostlyClear => 4
    case GoodWithClouds(_) | Favorable => 3
    case Mixed(_, _) | FairWithRain(_) | PartlyCloudy(_) => 2
    case HeavyRain(_, _) | PersistentRain(_) | ExtensiveCloud(_) => 1
    case _ => 0
  }

  /** The band of a chance: the first threshold it reaches among 85, 70,
      50 and 30. */
  function ChanceBand(chance: real): nat {
    if chance >= 85.0 then 4 else if chance >= 70.0 then 3 else if chance >= 50.0 then 2
    else if chance >= 30.0 then 1 else 0
  }

  /** The reason always comes from the band of the chance; among the
      excellent ones, "Exceptional" is chosen exactly when the mean cloud
      cover is below 20%; a heavy-rain reason quotes the maximum only above
      7.5 mm/h. */
  lemma ReasonFollowsBand(totalHours: int, t: Tally, avgCloud: real, chance: real)
    ensures ReasonBand(DetailedReason(totalHours, t, avgCloud, chance)) == ChanceBand(chance)
    ensures chance >= 85.0 ==> (DetailedReason(totalHours, t, avgCloud, chance) == Exceptional <==> avgCloud < 20.0)
    ensures DetailedReason(totalHours, t, avgCloud, chance).HeavyRain? ==>
      (DetailedReason(totalHours, t, avgCloud, chance).upTo.Some? <==> t.maxPrecip > 7.5)
  {
  }

  /** `VisibilityCalculator`: `hours` is the forecast length the last
      `FetchWeatherAsync` asked for, 0 until then. */
  class VisibilityCalculator {
    const user: User
    var hours: int

    constructor(u: User)
      ensures user == u && hours == 0
    {
      user := u;
      hours := 0;
    }

    /** `FetchWeatherAsync`: records `h` and returns the service's answer,
        which the model takes as `response`. */
    method FetchWeather(h: int, response: Forecast) returns (data: Forecast)
      modifies this
      ensures hours == h && data == response
    {
      hours := h;
      data := response;
    }

    /** `ComputeWeatherChanceWithReason`: the time-weighted chance over the
        hours processed, and the reason for it. */
    method ComputeWeatherChanceWithReason(f: Forecast, cloudThreshold: int) returns (chance: real, reason: Reason)
      ensures var n := ProcessedHours(f, hours);
        chance == ChanceOf(Totals(f, cloudThreshold, n)) &&
        reason == DetailedReason(hours, TallyOf(f, cloudThreshold, n),
                                 AverageCloud(TallyOf(f, cloudThreshold, n), n), chance)
    {
      var tally := Tally(0, 0, 0, 0, 0.0, 0.0);
      var totalScore, totalWeight := 0.0, 0.0;
      var cloudCount := 0;
      var i := 0;
      while i < |f.cloudcover| && i < |f.precipitation| && i < hours
        invariant i <= |f.cloudcover| && i <= |f.precipitation| && i <= Max0(hours)
        invariant (totalScore, totalWeight) == Totals(f, cloudThreshold, i)
        invariant tally == TallyOf(f, cloudThreshold, i)
        invariant cloudCount == i
        decreases |f.cloudcover| - i
      {
        var cloud := f.cloudcover[i];
        var precip := f.precipitation[i];
        var windSpeed := 0.0;
        if f.windspeed.Some? && i < |f.windspeed.value| {
          windSpeed := f.windspeed.value[i];
        }
        assert windSpeed == WindAt(f, i);
        cloudCount := cloudCount + 1;
        TallyStep(f, cloudThreshold, i);
        tally := CountOneHour(tally, cloud, precip, windSpeed, cloudThreshold);
        TotalsStep(f, cloudThreshold, i);
        totalScore, totalWeight := WeighOneHour(totalScore, totalWeight, i, cloud, precip, windSpeed, cloudThreshold);
        i := i + 1;
      }
      assert i == ProcessedHours(f, hours);
      chance := if totalWeight == 0.0 then 0.0 else totalScore / totalWeight * 100.0;
      var avgCloud := if cloudCount > 0 then tally.cloudSum / cloudCount as real else 0.0;
      reason := DetailedReason(hours, tally, avgCloud, chance);
    }
  }

  /** The counting part of one pass of the hour loop. */
  method CountOneHour(t: Tally, cloud: real, precip: real, windSpeed: real, cloudThreshold: int) returns (r: Tally)
    ensures r == CountHour(t, cloud, precip, windSpeed, cloudThreshold)
  {
    var hoursCloudy, hoursLightRain, hoursHeavyRain, hoursHighWind := t.hoursCloudy, t.hoursLightRain, t.hoursHeavyRain, t.hoursHighWind;
    var maxPrecip := t.maxPrecip;
    if cloud >= cloudThreshold as real { hoursCloudy := hoursCloudy + 1; }
    if precip > 0.0 && precip <= 2.5 { hoursLightRain := hoursLightRain + 1; }
    if precip > 2.5 { hoursHeavyRain := hoursHeavyRain + 1; }
    if precip > maxPrecip { maxPrecip := precip; }
    if windSpeed > 30.0 { hoursHighWind := hoursHighWind + 1; }
    r := Tally(hoursCloudy, hoursLightRain, hoursHeavyRain, hoursHighWind, maxPrecip, t.cloudSum + cloud);
  }

  /** The scoring part of one pass of the hour loop: the hour's time
      weight and score added to the running totals. */
  method WeighOneHour(totalScore: real, totalWeight: real, i: nat, cloud: real, precip: real, windSpeed: real,
                      cloudThreshold: int) returns (score': real, weight': real)
    ensures (score', weight') == AddHour((totalScore, totalWeight), HourScore(cloud, precip, windSpeed, cloudThreshold), TimeWeight(i))
  {
    var timeWeight := 1.0 - i as real * 0.05;
    if timeWeight < 0.5 { timeWeight := 0.5; }
    var score := HourScore(cloud, precip, windSpeed, cloudThreshold);
    score' := totalScore + Mul(score, timeWeight);
    weight' := totalWeight + timeWeight;
  }

  /** Before any fetch a calculator processes no hour, so its chance is 0. */
  lemma UnfetchedChanceIsZero(f: Forecast, threshold: int)
    ensures ProcessedHours(f, 0) == 0
    ensures ChanceOf(Totals(f, threshold, ProcessedHours(f, 0))) == 0.0
  {
  }
}
