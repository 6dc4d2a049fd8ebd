# Mentillo heart-rate store and mental-health classifier in Dafny

This project models the two services that hold Mentillo's computable logic, and proves properties of the model.

- **The heart-rate reading store** (`HeartRateService`) is a class over a sequence of `{timestamp, bpm}` readings. It holds:
  - the readings;
  - the last recorded reading;
  - the monitoring flag;
  - the timer handle.

  At construction it backfills one reading per hour for the last 24 hours. `RecordHeartRate` appends a synthetic reading. The base rate depends on the hour of day and a random offset is added. It then prunes every reading older than 24 hours. Start and stop are idempotent toggles. The store answers three windowed queries:
  - the readings of the last `timespan` hours;
  - their rounded mean;
  - their variability.
- **The rule-based classifier** (`MentalHealthService`) works over the store's last 24 hours. It computes three additive risk scores, each capped at 100:
  - stress: elevated mean, low variability, rising recent readings;
  - depression: low mean, flat day/night difference, low daytime rate;
  - insomnia: elevated night rate, high night variability, irregular jumps.

  It then picks a status from the highest score, with a fixed tie-break. Fewer than five readings give `unknown`. It also labels synthetic historical days.

The project has three modules:
- `Readings` (`readings.dfy`) holds:
  - the reading datatype;
  - the timestamp filter shared by pruning and the window query;
  - sums and means;
  - `Math.round`;
  - the population variance.
- `HeartRate` (`heart_rate.dfy`) holds the store class.
- `MentalHealth` (`mental_health.dfy`) holds the classifier.

The store's state-changing operations are methods with `modifies this`. Each states the new state in full. The queries are functions that read the store. The two risk calculations with counting loops, and the historical-data generator, are methods. Each is proved equal to a specification function whose properties are proved as lemmas.

The count of adjacent rising pairs, or of jumps over 10 bpm, is specified independently of the loop: it is the size of the set of positions `i` at which `(s[i-1], s[i])` qualifies.

The source reports a standard deviation (`Math.sqrt` of the variance) and compares it with thresholds 5 and 10 (stress) and 10 and 15 (insomnia). The model keeps the variance instead and compares it with 25, 100 and 225. `Readings.StandardDeviationThreshold` proves that for non-negative numbers the two comparisons agree.

## Model

| member | source | states |
|---|---|---|
| Readings.Since | src/services/heartRateService.ts:84-87 | the filter keeps exactly the readings whose timestamp is at or after the cutoff, and never grows the list |
| Readings.SinceCounts | src/services/heartRateService.ts:86 | the filter keeps every copy of a reading at or after the cutoff and no copy of an older one |
| Readings.SinceIsSubsequence | src/services/heartRateService.ts:75 | the filter's result is an order-preserving subsequence of its input |
| Readings.SinceConcat | src/services/heartRateService.ts:71-75 | filtering a concatenation equals concatenating the filtered parts |
| Readings.SinceAppend | src/services/heartRateService.ts:71-75 | a pushed reading that survives the cutoff stays the newest element after filtering |
| Readings.SinceKeepsAll | src/services/heartRateService.ts:75 | when no reading is older than the cutoff, pruning drops nothing |
| Readings.SinceTwice | src/services/heartRateService.ts:75 | two filters equal one filter by the later cutoff, so re-pruning with the same cutoff changes nothing |
| Readings.SinceChronological | src/services/heartRateService.ts:75 | filtering a chronological list yields a chronological list |
| Readings.AppendChronological | src/services/heartRateService.ts:71 | pushing a reading no older than any stored one keeps the list chronological |
| Readings.AppendThenPrune | src/services/heartRateService.ts:70-75 | after push-then-prune, the new reading is last, nothing older than the cutoff remains, and chronological order is kept |
| Readings.Bpms | src/services/heartRateService.ts:103 | the bpm map has the same length and the reading's bpm at every index |
| Readings.SumBounds | src/services/heartRateService.ts:94 | a sum of n values within [lo, hi] lies within [lo*n, hi*n] |
| Readings.MeanWithinRange | src/services/heartRateService.ts:94-95 | the mean lies between the smallest and the largest value |
| Readings.RoundHalfUp | src/services/heartRateService.ts:95 | `Math.round` returns the integer within half a unit, halves going up |
| Readings.RoundHalfUpOfInteger | src/services/mentalHealthService.ts:75 | rounding an integer-valued number returns that integer |
| Readings.ScaledTermsSum | src/services/heartRateService.ts:107-111 | the integer sum of (n*x - total)^2 equals the sum of n^2 * (x - total/n)^2 |
| Readings.ScaleOutOfSum | src/services/heartRateService.ts:111 | a factor common to every squared deviation comes out of the sum |
| Readings.ScaledDeviationsIdentity | src/services/heartRateService.ts:104-111 | the integer-scaled squared deviations equal n^2 times the squared deviations from the real mean |
| Readings.PopulationVariance | src/services/heartRateService.ts:103-111 | the source's mean-squared-deviation formula equals sum((n*x - total)^2) / n^3 and is never negative |
| Readings.PopulationVarianceZero | src/services/heartRateService.ts:99-114 | the variance is 0 exactly when all values are equal |
| Readings.StandardDeviationThreshold | src/services/mentalHealthService.ts:137-142 | for a non-negative deviation and threshold, `sd < t` iff `sd^2 < t^2` and `sd > t` iff `sd^2 > t^2` |
| HeartRate.BaseBpm | src/services/heartRateService.ts:51-59 | the base rate is 80 for hours 9 to 18, 60 for hours 22 to 5, and 70 otherwise |
| HeartRate.SyntheticBpm | src/services/heartRateService.ts:61-63 | with a draw in [0, 1), the sample lies in [base - 6, base + 5] |
| HeartRate.SeedBpm | src/services/heartRateService.ts:17 | with a draw in [0, 1), a backfilled sample lies in [65, 84] |
| HeartRate.HeartRateService.constructor | src/services/heartRateService.ts:11-20 | the store starts with 24 readings at now - (24 - i) hours, strictly increasing and within the last day, with bpm in [65, 84], no last reading, and no monitoring |
| HeartRate.HeartRateService.StartMonitoring | src/services/heartRateService.ts:23-33 | starting while monitoring changes nothing; otherwise the store is monitoring with the new timer and has recorded one reading |
| HeartRate.HeartRateService.StopMonitoring | src/services/heartRateService.ts:36-44 | afterwards the store is not monitoring and has no timer, with readings untouched; stopping while stopped changes nothing |
| HeartRate.HeartRateService.RecordHeartRate | src/services/heartRateService.ts:47-76 | the new reading becomes the last reading and is stored; the list is the pruned push; every stored reading is within the last day; chronological order is kept |
| HeartRate.HeartRateService.GetLatestReading | src/services/heartRateService.ts:79-81 | a present latest reading is the newest stored reading |
| HeartRate.HeartRateService.GetReadings | src/services/heartRateService.ts:84-87 | the window is exactly the stored readings within the last `timespan` hours, every copy of each kept, as an order-preserving subsequence, no longer than the store |
| HeartRate.HeartRateService.GetAverageHeartRate | src/services/heartRateService.ts:90-96 | 0 for an empty window; otherwise the mean rounded half-up, between the window's minimum and maximum bpm |
| HeartRate.HeartRateService.GetHeartRateVariability | src/services/heartRateService.ts:99-114 | 0 for fewer than two readings; otherwise the population variance of the window's bpm (the square of the reported deviation); never negative; 0 exactly when all bpm in the window are equal |
| MentalHealth.Max3 | src/services/mentalHealthService.ts:58 | the maximum is one of the three risks and bounds all of them |
| MentalHealth.NightReadings | src/services/mentalHealthService.ts:23-26 | the night subset is exactly the readings whose hour is 22 or later or 5 or earlier, every copy of each kept, in stored order |
| MentalHealth.DayReadings | src/services/mentalHealthService.ts:27-30 | the day subset is exactly the readings whose hour is after 5 and before 22, every copy of each kept, in stored order |
| MentalHealth.NightDayPartition | src/services/mentalHealthService.ts:23-30 | every reading falls into exactly one of the night and day subsets (multisets add up) |
| MentalHealth.AverageOf | src/services/mentalHealthService.ts:32-37 | a subset's average is 0 when it is empty and otherwise lies between its minimum and maximum bpm |
| MentalHealth.StepIndicesExtend | src/services/mentalHealthService.ts:94-96 | one more loop step adds one to the count exactly when its pair qualifies |
| MentalHealth.StepIndicesBound | src/services/mentalHealthService.ts:145-149 | at most n - 1 adjacent pairs of n readings can qualify |
| MentalHealth.StressRisk | src/services/mentalHealthService.ts:80-100 | the stress risk lies in [0, 85], so the cap at 100 is never reached |
| MentalHealth.StressTrendBonus | src/services/mentalHealthService.ts:92-97 | the risk gains 15 exactly when at least three adjacent recent pairs strictly rise |
| MentalHealth.RecentRisesAtMostFour | src/services/mentalHealthService.ts:20 | among the last five readings at most four pairs can rise |
| MentalHealth.StressRiskMonotone | src/services/mentalHealthService.ts:84-90 | the stress risk does not fall as the average rises or the variability falls |
| MentalHealth.CalculateStressRisk | src/services/mentalHealthService.ts:80-100 | the accumulator with its counting loop computes the stress risk |
| MentalHealth.DepressionRisk | src/services/mentalHealthService.ts:102-121 | the depression risk lies in [0, 80] |
| MentalHealth.DepressionRiskMonotone | src/services/mentalHealthService.ts:106-108 | the depression risk does not fall as the average falls |
| MentalHealth.InsomniaRisk | src/services/mentalHealthService.ts:123-155 | the insomnia risk lies in [0, 90] and is 0 with fewer than three night readings |
| MentalHealth.SteadyNightInsomniaRisk | src/services/mentalHealthService.ts:133-149 | equal night readings add nothing for variability or irregularity |
| MentalHealth.CalculateInsomniaRisk | src/services/mentalHealthService.ts:123-155 | the accumulator with its early return and counting loop computes the insomnia risk |
| MentalHealth.SelectStatus | src/services/mentalHealthService.ts:58-71 | healthy iff the highest risk is at most 50; otherwise stress, then depression, then insomnia, the first that attains the maximum; never unknown |
| MentalHealth.Analyze | src/services/mentalHealthService.ts:8-78 | unknown with confidence 0 and no risk factors iff there are fewer than five readings; otherwise the stress risk of the last five readings, the depression risk of the day and night averages, the insomnia risk of the night readings, each in [0, 100], confidence equal to the highest risk, and the selected status |
| MentalHealth.AnalyzeHeartRate | src/services/mentalHealthService.ts:8-19 | the classification of the store's 24-hour window is unknown, and lacks risk factors, exactly when the window has fewer than five readings |
| MentalHealth.HistoricalAverage | src/services/mentalHealthService.ts:169 | with a sine in [-1, 1] the synthetic day average lies in [60, 80] |
| MentalHealth.DayStatus | src/services/mentalHealthService.ts:172-176 | stress iff avg > 80; depression iff avg < 65; otherwise insomnia iff the day index is divisible by 5, else healthy |
| MentalHealth.HistoricalDayNeverStress | src/services/mentalHealthService.ts:169-173 | no historical day can be labelled stress, since the average never exceeds 80 |
| MentalHealth.GetHistoricalData | src/services/mentalHealthService.ts:158-186 | `days` records (none when `days <= 0`), for day indices days - 1 down to 0, each labelled by its average and index |

## Left out

- Timers: `window.setInterval`, `clearInterval` and the `intervalMs` argument are not modelled. Start and stop only toggle the flag and remember the handle, which is a positive parameter. The periodic timer callback is not modelled; it would be repeated calls of `RecordHeartRate`.
- The clock, the local hour and the random source are parameters:
  - `Date.now()` is `now`;
  - `new Date().getHours()` is `hour`;
  - `new Date(t).getHours()` is the function `hourOf`;
  - `Math.random()` is a draw in [0, 1).
- Within one operation, separate clock reads are taken as one instant `now`. This covers the two reads in `recordHeartRate` and the three window queries of `analyzeHeartRate`.
- `Math.sqrt` is not modelled. The variability is reported as the variance. The thresholds are squared, which `Readings.StandardDeviationThreshold` justifies.
- Floating point: JavaScript numbers are exact reals. Rounding error in the means and variances is not modelled.
- HeartRate.SyntheticBpm: the bound `base + 5` holds over the reals. In IEEE doubles, a draw just below 1 can round `base + 12r - 6` up to `base + 6`.
- HeartRate.SeedBpm: the bound 84 holds over the reals. In IEEE doubles, a draw just below 1 can round `65 + 20r` up to 85.
- `Math.sin(i / 2)` in the historical generator is the parameter `sine`. `HistoricalAverage` and `HistoricalDayNeverStress` assume only that it lies in [-1, 1].
- The `toISOString` date string of a historical record is replaced by its day index `daysAgo`.
- The module-level singletons `heartRateService` and `mentalHealthService` are not modelled. `AnalyzeHeartRate` takes the store as an argument.
- The React pages and components, charts, routing, toasts and the Settings page are not modelled: they are user interface with no computable logic.
- The `stressLevel`/`depressionLevel` fields used by the dashboard are not modelled: no code in the services produces them.
