/**
 * The rule-based mental-health classifier: three additive risk scores
 * (stress, depression, insomnia) computed from heart-rate statistics, the
 * status chosen from the highest of them, and the labelling of synthetic
 * historical days.
 *
 * The local hour of a timestamp (`new Date(t).getHours()`) is the parameter
 * `hourOf`; the standard deviations the source compares are taken as
 * variances compared with squared thresholds.
 */
module MentalHealth {
  import opened Readings
  import opened HeartRate

  datatype Status = Healthy | Stress | Depression | Insomnia | Unknown

  datatype RiskFactors = RiskFactors(stress: int, depression: int, insomnia: int)

  /** A classification: `riskFactors` is present whenever the risks were computed. */
  datatype MentalHealthData = MentalHealthData(status: Status, confidence: int, riskFactors: Option<RiskFactors>)

  /** Fewer readings than this in the default window give no classification. */
  const MinReadings: int := 5
  const RiskCap: int := 100
  /** Risks above this name a status; the source tests 70 and then 50 with the same outcome. */
  const HighRisk: int := 70
  const ModerateRisk: int := 50

  function Min(a: int, b: int): int { if a <= b then a else b }

  function Max(a: int, b: int): int { if a >= b then a else b }

  function Abs(x: int): int { if x < 0 then -x else x }

  function AbsReal(x: real): real { if x < 0.0 then -x else x }

  /** `Math.max` of three numbers. */
  function Max3(a: int, b: int, c: int): (m: int)
    ensures m >= a && m >= b && m >= c
    ensures m == a || m == b || m == c
  {
    Max(Max(a, b), c)
  }

  // ---------------------------------------------------------------------
  // Night and day partition
  // ---------------------------------------------------------------------

  predicate IsNightHour(hour: int) { hour >= 22 || hour <= 5 }

  predicate IsDayHour(hour: int) { hour > 5 && hour < 22 }

  /** The readings taken at night (22:00 to 05:59 local time), in order. */
  function NightReadings(rs: seq<Reading>, hourOf: int -> int): (r: seq<Reading>)
    ensures |r| <= |rs|
    ensures forall x :: x in r <==> x in rs && IsNightHour(hourOf(x.timestamp))
    ensures forall x :: multiset(r)[x] == if IsNightHour(hourOf(x.timestamp)) then multiset(rs)[x] else 0
    ensures IsSubsequence(r, rs)
  {
    if rs == [] then []
    else
      assert rs == [rs[0]] + rs[1..];
      if IsNightHour(hourOf(rs[0].timestamp)) then [rs[0]] + NightReadings(rs[1..], hourOf)
      else NightReadings(rs[1..], hourOf)
  }

  /** The readings taken by day (06:00 to 21:59 local time), in order. */
  function DayReadings(rs: seq<Reading>, hourOf: int -> int): (r: seq<Reading>)
    ensures |r| <= |rs|
    ensures forall x :: x in r <==> x in rs && IsDayHour(hourOf(x.timestamp))
    ensures forall x :: multiset(r)[x] == if IsDayHour(hourOf(x.timestamp)) then multiset(rs)[x] else 0
    ensures IsSubsequence(r, rs)
  {
    if rs == [] then []
    else
      assert rs == [rs[0]] + rs[1..];
      if IsDayHour(hourOf(rs[0].timestamp)) then [rs[0]] + DayReadings(rs[1..], hourOf)
      else DayReadings(rs[1..], hourOf)
  }

  /** Every reading falls into exactly one of the night and day subsets. */
  lemma {:induction false} NightDayPartition(rs: seq<Reading>, hourOf: int -> int)
    ensures |NightReadings(rs, hourOf)| + |DayReadings(rs, hourOf)| == |rs|
    ensures multiset(NightReadings(rs, hourOf)) + multiset(DayReadings(rs, hourOf)) == multiset(rs)
  {
    if rs != [] {
      NightDayPartition(rs[1..], hourOf);
      assert rs == [rs[0]] + rs[1..];
    }
  }

  /** Mean bpm of a subset, 0 when it is empty. */
  function AverageOf(rs: seq<Reading>): (avg: real)
    ensures rs != [] ==> SeqMin(Bpms(rs)) as real <= avg <= SeqMax(Bpms(rs)) as real
    ensures rs == [] ==> avg == 0.0
  {
    if |rs| > 0 then MeanWithinRange(Bpms(rs)); Mean(Bpms(rs)) else 0.0
  }

  // ---------------------------------------------------------------------
  // Counting adjacent pairs
  // ---------------------------------------------------------------------

  /** The pair ending at position i, (s[i-1], s[i]), satisfies `step`. */
  predicate StepAt(s: seq<int>, i: int, step: (int, int) -> bool)
  {
    1 <= i < |s| && step(s[i - 1], s[i])
  }

  /** The positions i at which the adjacent pair (s[i-1], s[i]) satisfies `step`. */
  function StepIndices(s: seq<int>, step: (int, int) -> bool): set<int>
  {
    set i | 1 <= i < |s| && StepAt(s, i, step)
  }

  /** A strictly increasing pair. */
  predicate Rises(prev: int, next: int) { next > prev }

  /** A pair differing by more than 10 bpm. */
  predicate Jumps(prev: int, next: int) { Abs(next - prev) > 10 }

  /** A pair inside a prefix is judged the same in the prefix and in the whole list. */
  lemma StepAtPrefix(s: seq<int>, i: int, j: int, step: (int, int) -> bool)
    requires 1 <= j < i <= |s|
    ensures StepAt(s[..i], j, step) == StepAt(s, j, step)
  {
    assert s[..i][j - 1] == s[j - 1] && s[..i][j] == s[j];
  }

  /** Extending a prefix by one element adds its pair, if it qualifies. */
  lemma StepIndicesExtend(s: seq<int>, i: int, step: (int, int) -> bool)
    requires 1 <= i < |s|
    ensures |StepIndices(s[..i + 1], step)| == |StepIndices(s[..i], step)| + (if step(s[i - 1], s[i]) then 1 else 0)
  {
    var before := StepIndices(s[..i], step);
    var after := StepIndices(s[..i + 1], step);
    var added := if step(s[i - 1], s[i]) then {i} else {};
    forall j ensures j in after <==> j in before + added {
      if 1 <= j < i {
        StepAtPrefix(s, i, j, step);
        StepAtPrefix(s, i + 1, j, step);
      } else if j == i {
        StepAtPrefix(s, i + 1, j, step);
      }
    }
    assert after == before + added;
    assert i !in before;
  }

  lemma {:induction false} StepIndicesBound(s: seq<int>, step: (int, int) -> bool)
    ensures |StepIndices(s, step)| <= if |s| == 0 then 0 else |s| - 1
    decreases |s|
  {
    if |s| <= 1 {
      assert StepIndices(s, step) == {};
    } else {
      var t := s[..|s| - 1];
      StepIndicesBound(t, step);
      StepIndicesExtend(s, |s| - 1, step);
      assert s[..|s|] == s;
    }
  }

  // ---------------------------------------------------------------------
  // Risk scores
  // ---------------------------------------------------------------------

  /**
   * Stress risk: elevated average rate, low variability, and at least three
   * rising pairs among the recent readings, capped at 100.
   */
  function StressRisk(avgHeartRate: int, variance: real, recent: seq<int>): (risk: int)
    ensures 0 <= risk <= 85
  {
    var elevated := if avgHeartRate > 85 then 30 else if avgHeartRate > 75 then 15 else 0;
    var steady := if variance < 25.0 then 40 else if variance < 100.0 then 20 else 0;
    var rising := if |StepIndices(recent, Rises)| >= 3 then 15 else 0;
    Min(RiskCap, elevated + steady + rising)
  }

  /** The stress risk adds 15 exactly when three or more adjacent pairs rise. */
  lemma StressTrendBonus(avgHeartRate: int, variance: real, recent: seq<int>)
    ensures StressRisk(avgHeartRate, variance, recent) ==
              StressRisk(avgHeartRate, variance, []) + (if |StepIndices(recent, Rises)| >= 3 then 15 else 0)
  {
    assert StepIndices([], Rises) == {};
  }

  /** Of the last five readings only four pairs can rise. */
  lemma RecentRisesAtMostFour(recent: seq<int>)
    requires |recent| == MinReadings
    ensures |StepIndices(recent, Rises)| <= 4
  {
    StepIndicesBound(recent, Rises);
  }

  /** Stress risk does not fall as the average rises or as the variability falls. */
  lemma StressRiskMonotone(avg1: int, avg2: int, var1: real, var2: real, recent: seq<int>)
    requires avg1 <= avg2 && var2 <= var1
    ensures StressRisk(avg1, var1, recent) <= StressRisk(avg2, var2, recent)
  {
  }

  /** The imperative scoring of the source, with its counting loop. */
  method CalculateStressRisk(avgHeartRate: int, heartRateVariance: real, recentReadings: seq<Reading>)
    returns (risk: int)
    ensures risk == StressRisk(avgHeartRate, heartRateVariance, Bpms(recentReadings))
  {
    risk := 0;
    if avgHeartRate > 85 {
      risk := risk + 30;
    } else if avgHeartRate > 75 {
      risk := risk + 15;
    }
    if heartRateVariance < 25.0 {
      risk := risk + 40;
    } else if heartRateVariance < 100.0 {
      risk := risk + 20;
    }
    ghost var bpms := Bpms(recentReadings);
    var increasingCount := 0;
    var i := 1;
    while i < |recentReadings|
      invariant 1 <= i
      invariant recentReadings != [] ==> i <= |recentReadings|
      invariant recentReadings != [] ==> increasingCount == |StepIndices(bpms[..i], Rises)|
      invariant recentReadings == [] ==> increasingCount == 0
    {
      StepIndicesExtend(bpms, i, Rises);
      if recentReadings[i].bpm > recentReadings[i - 1].bpm {
        increasingCount := increasingCount + 1;
      }
      i := i + 1;
    }
    if recentReadings == [] {
      assert StepIndices(bpms, Rises) == {};
    } else {
      assert bpms[..i] == bpms;
    }
    if increasingCount >= 3 {
      risk := risk + 15;
    }
    risk := Min(RiskCap, risk);
  }

  /**
   * Depression risk: low average rate, little difference between day and
   * night, and a low daytime rate, capped at 100.
   */
  function DepressionRisk(avgHeartRate: int, avgDayHeartRate: real, avgNightHeartRate: real): (risk: int)
    ensures 0 <= risk <= 80
  {
    var low := if avgHeartRate < 60 then 25 else if avgHeartRate < 65 then 15 else 0;
    var dayNightDifference := AbsReal(avgDayHeartRate - avgNightHeartRate);
    var flat := if dayNightDifference < 5.0 then 30 else if dayNightDifference < 8.0 then 15 else 0;
    var lethargic := if avgDayHeartRate < 65.0 then 25 else if avgDayHeartRate < 70.0 then 15 else 0;
    Min(RiskCap, low + flat + lethargic)
  }

  /** Depression risk does not fall as the average falls. */
  lemma DepressionRiskMonotone(avg1: int, avg2: int, day: real, night: real)
    requires avg1 <= avg2
    ensures DepressionRisk(avg2, day, night) <= DepressionRisk(avg1, day, night)
  {
  }

  /**
   * Insomnia risk: none with fewer than three night readings; otherwise an
   * elevated night rate, a high night variability and irregular jumps
   * between consecutive night readings, capped at 100.
   */
  function InsomniaRisk(avgNightHeartRate: real, night: seq<int>): (risk: int)
    ensures 0 <= risk <= 90
    ensures |night| < 3 ==> risk == 0
  {
    if |night| < 3 then 0
    else
      var elevated := if avgNightHeartRate > 70.0 then 30 else if avgNightHeartRate > 65.0 then 15 else 0;
      var nightVariance := PopulationVariance(night);
      var restless := if nightVariance > 225.0 then 40 else if nightVariance > 100.0 then 20 else 0;
      var irregularPatterns := |StepIndices(night, Jumps)|;
      var irregular := if irregularPatterns >= 3 then 20 else if irregularPatterns > 1 then 10 else 0;
      Min(RiskCap, elevated + restless + irregular)
  }

  /** A steady night (all night readings equal) scores only on its rate. */
  lemma SteadyNightInsomniaRisk(avgNightHeartRate: real, night: seq<int>)
    requires |night| >= 3
    requires forall j, k :: 0 <= j < |night| && 0 <= k < |night| ==> night[j] == night[k]
    ensures InsomniaRisk(avgNightHeartRate, night) == (if avgNightHeartRate > 70.0 then 30 else if avgNightHeartRate > 65.0 then 15 else 0)
  {
    PopulationVarianceZero(night);
    assert StepIndices(night, Jumps) == {} by {
      forall i | 1 <= i < |night| ensures !Jumps(night[i - 1], night[i]) {
        assert night[i - 1] == night[i];
      }
    }
  }

  /** The imperative scoring of the source, with its counting loop. */
  method CalculateInsomniaRisk(avgNightHeartRate: real, nightReadings: seq<Reading>) returns (risk: int)
    ensures risk == InsomniaRisk(avgNightHeartRate, Bpms(nightReadings))
  {
    risk := 0;
    if |nightReadings| < 3 {
      return;
    }
    if avgNightHeartRate > 70.0 {
      risk := risk + 30;
    } else if avgNightHeartRate > 65.0 {
      risk := risk + 15;
    }
    var nightHeartRates := Bpms(nightReadings);
    var nightVariance := PopulationVariance(nightHeartRates);
    if nightVariance > 225.0 {
      risk := risk + 40;
    } else if nightVariance > 100.0 {
      risk := risk + 20;
    }
    var irregularPatterns := 0;
    var i := 1;
    while i < |nightReadings|
      invariant 1 <= i <= |nightReadings|
      invariant irregularPatterns == |StepIndices(nightHeartRates[..i], Jumps)|
    {
      StepIndicesExtend(nightHeartRates, i, Jumps);
      var diff := Abs(nightReadings[i].bpm - nightReadings[i - 1].bpm);
      if diff > 10 {
        irregularPatterns := irregularPatterns + 1;
      }
      i := i + 1;
    }
    assert nightHeartRates[..i] == nightHeartRates;
    if irregularPatterns >= 3 {
      risk := risk + 20;
    } else if irregularPatterns > 1 {
      risk := risk + 10;
    }
    risk := Min(RiskCap, risk);
  }

  // ---------------------------------------------------------------------
  // Classification
  // ---------------------------------------------------------------------

  /** The factor equal to the highest risk, checked in the order stress, depression, insomnia. */
  function Dominant(stress: int, depression: int, insomnia: int, maxRisk: int): Status
  {
    if stress == maxRisk then Stress
    else if depression == maxRisk then Depression
    else if insomnia == maxRisk then Insomnia
    else Healthy
  }

  /**
   * Healthy unless the highest risk exceeds 50; then the first factor, in the
   * order stress, depression, insomnia, that attains it.
   */
  function SelectStatus(stress: int, depression: int, insomnia: int): (status: Status)
    ensures status != Unknown
    ensures status == Healthy <==> Max3(stress, depression, insomnia) <= ModerateRisk
    ensures status == Stress <==>
              Max3(stress, depression, insomnia) > ModerateRisk && stress == Max3(stress, depression, insomnia)
    ensures status == Depression <==>
              && Max3(stress, depression, insomnia) > ModerateRisk
              && stress < depression && depression == Max3(stress, depression, insomnia)
    ensures status == Insomnia <==>
              && Max3(stress, depression, insomnia) > ModerateRisk
              && stress < insomnia && depression < insomnia
  {
    var maxRisk := Max3(stress, depression, insomnia);
    if maxRisk > HighRisk then Dominant(stress, depression, insomnia, maxRisk)
    else if maxRisk > ModerateRisk then Dominant(stress, depression, insomnia, maxRisk)
    else Healthy
  }

  /**
   * `analyzeHeartRate` over the default window `readings`, given the store's
   * rounded average of that window and its variance (the square of the
   * variability the source reports).
   */
  function Analyze(readings: seq<Reading>, averageHeartRate: int, heartRateVariance: real, hourOf: int -> int)
    : (data: MentalHealthData)
    ensures |readings| < MinReadings <==> data.status == Unknown
    ensures |readings| < MinReadings ==> data == MentalHealthData(Unknown, 0, None)
    ensures |readings| >= MinReadings ==>
              && data.riskFactors.Some?
              && 0 <= data.riskFactors.value.stress <= RiskCap
              && 0 <= data.riskFactors.value.depression <= RiskCap
              && 0 <= data.riskFactors.value.insomnia <= RiskCap
              && data.confidence == Max3(data.riskFactors.value.stress, data.riskFactors.value.depression,
                                         data.riskFactors.value.insomnia)
              && data.status == SelectStatus(data.riskFactors.value.stress, data.riskFactors.value.depression,
                                             data.riskFactors.value.insomnia)
              && (data.status == Healthy <==> data.confidence <= ModerateRisk)
    ensures |readings| >= MinReadings ==>
              && data.riskFactors.Some?
              && data.riskFactors.value.stress ==
                   StressRisk(averageHeartRate, heartRateVariance, Bpms(readings[|readings| - MinReadings..]))
              && data.riskFactors.value.depression ==
                   DepressionRisk(averageHeartRate, AverageOf(DayReadings(readings, hourOf)),
                                  AverageOf(NightReadings(readings, hourOf)))
              && data.riskFactors.value.insomnia ==
                   InsomniaRisk(AverageOf(NightReadings(readings, hourOf)), Bpms(NightReadings(readings, hourOf)))
  {
    if |readings| < MinReadings then MentalHealthData(Unknown, 0, None)
    else
      var recentReadings := readings[|readings| - MinReadings..];
      var nightReadings := NightReadings(readings, hourOf);
      var dayReadings := DayReadings(readings, hourOf);
      var avgNightHeartRate := AverageOf(nightReadings);
      var avgDayHeartRate := AverageOf(dayReadings);
      var stressRisk := StressRisk(averageHeartRate, heartRateVariance, Bpms(recentReadings));
      var depressionRisk := DepressionRisk(averageHeartRate, avgDayHeartRate, avgNightHeartRate);
      var insomniaRisk := InsomniaRisk(avgNightHeartRate, Bpms(nightReadings));
      var riskFactors := RiskFactors(stressRisk, depressionRisk, insomniaRisk);
      var maxRisk := Max3(stressRisk, depressionRisk, insomniaRisk);
      var status := SelectStatus(stressRisk, depressionRisk, insomniaRisk);
      RoundHalfUpOfInteger(maxRisk);
      MentalHealthData(status, Min(RiskCap, RoundHalfUp(maxRisk as real)), Some(riskFactors))
  }

  /** `analyzeHeartRate`: classifies the store's last 24 hours of readings. */
  function AnalyzeHeartRate(service: HeartRateService, now: int, hourOf: int -> int): (data: MentalHealthData)
    reads service
    ensures data.status == Unknown <==> |service.GetReadings(DefaultTimespan, now)| < MinReadings
    ensures data.riskFactors.Some? <==> |service.GetReadings(DefaultTimespan, now)| >= MinReadings
  {
    Analyze(service.GetReadings(DefaultTimespan, now), service.GetAverageHeartRate(DefaultTimespan, now),
            service.GetHeartRateVariability(DefaultTimespan, now), hourOf)
  }

  // ---------------------------------------------------------------------
  // Historical days
  // ---------------------------------------------------------------------

  /** One synthetic day, `daysAgo` days before today (the date string is not modelled). */
  datatype DayRecord = DayRecord(daysAgo: int, averageHeartRate: int, mentalStatus: Status)

  /** The synthetic average `70 + floor(sine * 10)` of a day, `sine` being `Math.sin(i / 2)`. */
  function HistoricalAverage(sine: real): (avg: int)
    ensures -1.0 <= sine <= 1.0 ==> 60 <= avg <= 80
  {
    70 + (sine * 10.0).Floor
  }

  /** The status label of a historical day from its average and its index. */
  function DayStatus(averageHeartRate: int, daysAgo: int): (status: Status)
    ensures status == Stress <==> averageHeartRate > 80
    ensures status == Depression <==> averageHeartRate < 65
    ensures status == Insomnia <==> 65 <= averageHeartRate <= 80 && daysAgo % 5 == 0
    ensures status == Healthy <==> 65 <= averageHeartRate <= 80 && daysAgo % 5 != 0
  {
    if averageHeartRate > 80 then Stress
    else if averageHeartRate < 65 then Depression
    else if daysAgo % 5 == 0 then Insomnia
    else Healthy
  }

  /** The record built for day index `i`. */
  function HistoricalRecord(i: int, sine: int -> real): DayRecord
  {
    var avgHeartRate := HistoricalAverage(sine(i));
    DayRecord(i, avgHeartRate, DayStatus(avgHeartRate, i))
  }

  /** With a sine in [-1, 1] the average never exceeds 80, so no historical day is labelled stress. */
  lemma HistoricalDayNeverStress(i: int, sine: int -> real)
    requires -1.0 <= sine(i) <= 1.0
    ensures HistoricalRecord(i, sine).mentalStatus != Stress
  {
  }

  /**
   * `getHistoricalData`: one record per day, oldest first, for day indices
   * `days - 1` down to 0; `sine(i)` stands for `Math.sin(i / 2)`.
   */
  method GetHistoricalData(days: int, sine: int -> real) returns (data: seq<DayRecord>)
    ensures |data| == if days > 0 then days else 0
    ensures forall k :: 0 <= k < |data| ==> data[k] == HistoricalRecord(days - 1 - k, sine)
  {
    data := [];
    var i := days - 1;
    while i >= 0
      invariant i <= days - 1
      invariant days > 0 ==> i >= -1
      invariant days <= 0 ==> i == days - 1
      invariant |data| == days - 1 - i
      invariant forall k :: 0 <= k < |data| ==> data[k] == HistoricalRecord(days - 1 - k, sine)
    {
      var avgHeartRate := HistoricalAverage(sine(i));
      var status := Healthy;
      if avgHeartRate > 80 {
        status := Stress;
      } else if avgHeartRate < 65 {
        status := Depression;
      } else if i % 5 == 0 {
        status := Insomnia;
      }
      data := data + [DayRecord(i, avgHeartRate, status)];
      i := i - 1;
    }
  }
}
