/**
 * The heart-rate reading store: a chronological list of simulated readings,
 * pruned to the last 24 hours on every insert, with windowed queries.
 *
 * The clock (`Date.now()`), the local hour of day (`getHours()`), the random
 * source (`Math.random()`) and the interval timer are outside the model: the
 * current time, the hour, the random draw in [0, 1) and the timer handle are
 * parameters of the operations that use them.
 */
module HeartRate {
  import opened Readings

  const HourMs: int := 60 * 60 * 1000
  const DayMs: int := 24 * HourMs

  /** Number of backfilled readings, one per hour, created with the store. */
  const SeedCount: int := 24

  /** The default query window, in hours. */
  const DefaultTimespan: int := 24

  /** Resting rate of the simulated sensor by hour of day: higher by day, lower at night. */
  function BaseBpm(hour: int): (b: int)
    ensures 9 <= hour <= 18 ==> b == 80
    ensures (hour >= 22 || hour <= 5) ==> b == 60
    ensures 5 < hour < 9 || 18 < hour < 22 ==> b == 70
  {
    var baseBpm := 70;
    if 9 <= hour <= 18 then baseBpm + 10
    else if hour >= 22 || hour <= 5 then baseBpm - 10
    else baseBpm
  }

  /** The synthetic sample `floor(base + (12 * random - 6))` for a random draw in [0, 1). */
  function SyntheticBpm(hour: int, random: real): (bpm: int)
    requires 0.0 <= random < 1.0
    ensures BaseBpm(hour) - 6 <= bpm <= BaseBpm(hour) + 5
  {
    var randomVariation := random * 12.0 - 6.0;
    (BaseBpm(hour) as real + randomVariation).Floor
  }

  /** The backfilled sample `floor(65 + random * 20)` for a random draw in [0, 1). */
  function SeedBpm(random: real): (bpm: int)
    requires 0.0 <= random < 1.0
    ensures 65 <= bpm <= 84
  {
    (65.0 + random * 20.0).Floor
  }

  class HeartRateService {
    var readings: seq<Reading>
    var lastReading: Option<Reading>
    var isMonitoring: bool
    /** The handle of the running interval timer, if any. */
    var monitoringInterval: Option<int>

    /**
     * The store's invariant: a timer runs exactly while monitoring, timer
     * handles are positive, and the last recorded reading is the newest one
     * stored.
     */
    ghost predicate Valid()
      reads this
    {
      && (isMonitoring <==> monitoringInterval.Some?)
      && (monitoringInterval.Some? ==> monitoringInterval.value > 0)
      && (lastReading.Some? ==> readings != [] && readings[|readings| - 1] == lastReading.value)
    }

    /** Creates the store with one reading per hour over the 24 hours before `now`. */
    constructor (now: int, random: seq<real>)
      requires |random| == SeedCount
      requires forall k :: 0 <= k < |random| ==> 0.0 <= random[k] < 1.0
      ensures Valid()
      ensures |readings| == SeedCount
      ensures forall k :: 0 <= k < SeedCount ==>
                readings[k] == Reading(now - (SeedCount - k) * HourMs, SeedBpm(random[k]))
      ensures forall k :: 0 <= k < SeedCount ==> 65 <= readings[k].bpm <= 84
      ensures forall j, k :: 0 <= j < k < SeedCount ==> readings[j].timestamp < readings[k].timestamp
      ensures forall k :: 0 <= k < SeedCount ==> now - DayMs <= readings[k].timestamp < now
      ensures lastReading == None && !isMonitoring && monitoringInterval == None
    {
      readings := [];
      lastReading := None;
      isMonitoring := false;
      monitoringInterval := None;
      new;
      var i := 0;
      while i < SeedCount
        invariant 0 <= i <= SeedCount
        invariant |readings| == i
        invariant forall k :: 0 <= k < i ==>
                    readings[k] == Reading(now - (SeedCount - k) * HourMs, SeedBpm(random[k]))
        invariant lastReading == None && !isMonitoring && monitoringInterval == None
      {
        readings := readings + [Reading(now - (SeedCount - i) * HourMs, SeedBpm(random[i]))];
        i := i + 1;
      }
    }

    /**
     * Starts monitoring: unless already monitoring, remembers the timer
     * handle and records one reading at once.
     */
    method StartMonitoring(now: int, hour: int, random: real, timer: int)
      requires Valid()
      requires 0.0 <= random < 1.0
      requires timer > 0
      modifies this
      ensures Valid()
      ensures old(isMonitoring) ==> unchanged(this)
      ensures !old(isMonitoring) ==>
                && isMonitoring && monitoringInterval == Some(timer)
                && lastReading == Some(Reading(now, SyntheticBpm(hour, random)))
                && readings == Since(old(readings) + [Reading(now, SyntheticBpm(hour, random))], now - DayMs)
    {
      if isMonitoring {
        return;
      }
      isMonitoring := true;
      monitoringInterval := Some(timer);
      RecordHeartRate(now, hour, random);
    }

    /** Stops monitoring and forgets the timer; does nothing when not monitoring. */
    method StopMonitoring()
      requires Valid()
      modifies this
      ensures Valid()
      ensures !isMonitoring && monitoringInterval == None
      ensures readings == old(readings) && lastReading == old(lastReading)
      ensures !old(isMonitoring) ==> unchanged(this)
    {
      if !isMonitoring {
        return;
      }
      isMonitoring := false;
      // JavaScript tests the handle for truthiness: 0 counts as no timer.
      if monitoringInterval.Some? && monitoringInterval.value != 0 {
        monitoringInterval := None;
      }
    }

    /**
     * Records one synthetic reading taken at `now`, then drops every reading
     * older than 24 hours before `now`.
     */
    method RecordHeartRate(now: int, hour: int, random: real)
      requires Valid()
      requires 0.0 <= random < 1.0
      modifies this
      ensures Valid()
      ensures lastReading == Some(Reading(now, SyntheticBpm(hour, random)))
      ensures readings == Since(old(readings) + [lastReading.value], now - DayMs)
      ensures isMonitoring == old(isMonitoring) && monitoringInterval == old(monitoringInterval)
      ensures lastReading.value in readings
      ensures forall x :: x in readings ==> x.timestamp >= now - DayMs
      ensures (Chronological(old(readings)) && forall x :: x in old(readings) ==> x.timestamp <= now) ==>
                Chronological(readings)
    {
      var bpm := SyntheticBpm(hour, random);
      var reading := Reading(now, bpm);
      lastReading := Some(reading);
      readings := readings + [reading];
      var oneDayAgo := now - DayMs;
      readings := Since(readings, oneDayAgo);
      AppendThenPrune(old(readings), reading, oneDayAgo);
    }

    /** The most recently recorded reading, if any. */
    function GetLatestReading(): (r: Option<Reading>)
      reads this
      requires Valid()
      ensures r.Some? ==> readings != [] && r.value == readings[|readings| - 1]
    {
      lastReading
    }

    /** The stored readings of the last `timespan` hours before `now`, in stored order. */
    function GetReadings(timespan: int, now: int): (r: seq<Reading>)
      reads this
      ensures |r| <= |readings|
      ensures forall x :: x in r <==> x in readings && x.timestamp >= now - timespan * HourMs
      ensures IsSubsequence(r, readings)
      ensures forall x :: multiset(r)[x] == if x.timestamp >= now - timespan * HourMs then multiset(readings)[x] else 0
    {
      var cutoffTime := now - timespan * HourMs;
      SinceIsSubsequence(readings, cutoffTime);
      SinceCounts(readings, cutoffTime);
      Since(readings, cutoffTime)
    }

    /** The rounded mean bpm of the window; 0 for an empty window. */
    function GetAverageHeartRate(timespan: int, now: int): (avg: int)
      reads this
      ensures GetReadings(timespan, now) == [] ==> avg == 0
      ensures GetReadings(timespan, now) != [] ==>
                && avg as real - 0.5 <= Mean(Bpms(GetReadings(timespan, now))) < avg as real + 0.5
                && SeqMin(Bpms(GetReadings(timespan, now))) <= avg <= SeqMax(Bpms(GetReadings(timespan, now)))
    {
      var relevantReadings := GetReadings(timespan, now);
      if |relevantReadings| == 0 then 0
      else
        var bpms := Bpms(relevantReadings);
        MeanWithinRange(bpms);
        RoundHalfUp(Mean(bpms))
    }

    /**
     * The variability of the window, given as the population variance of its
     * bpm values (the square of the standard deviation the store reports);
     * 0 for fewer than two readings.
     */
    function GetHeartRateVariability(timespan: int, now: int): (v: real)
      reads this
      ensures v >= 0.0
      ensures |GetReadings(timespan, now)| < 2 ==> v == 0.0
      ensures |GetReadings(timespan, now)| >= 2 ==> v == PopulationVariance(Bpms(GetReadings(timespan, now)))
      ensures v == 0.0 <==> forall j, k :: 0 <= j < |GetReadings(timespan, now)| && 0 <= k < |GetReadings(timespan, now)| ==>
                                GetReadings(timespan, now)[j].bpm == GetReadings(timespan, now)[k].bpm
    {
      var relevantReadings := GetReadings(timespan, now);
      if |relevantReadings| < 2 then 0.0
      else
        var bpms := Bpms(relevantReadings);
        PopulationVarianceZero(bpms);
        PopulationVariance(bpms)
    }
  }
}
