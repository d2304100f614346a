/**
 * The trip-energy tracker: a 30-minute window of (time, remaining energy,
 * odometer) samples fed once per refresh, with charge detection, per-day and
 * lifetime energy-delta totals, and an on-demand consumption estimate over
 * the window's first and last samples.
 *
 * `Step` is the functional model of one `add_sample` call; the class
 * `TripEnergyTracker` performs it field by field and is proved to agree.
 */
module TripTracker {
  import opened Snapshot

  const SAMPLE_INTERVAL: int := 60        // seconds between accepted samples
  const CHARGING_THRESHOLD: real := 0.2   // kWh rise that counts as charging
  const WINDOW_SECONDS: int := 30 * 60    // samples older than this are pruned

  /** One observation: timestamp in seconds, remaining energy in kWh,
      odometer in km. */
  datatype Sample = Sample(time: int, energy: real, distance: real)

  /** A consumption estimate: energy used (kWh) over distance driven (km). */
  datatype Trip = Trip(energy: real, distance: real)

  function Last(s: seq<Sample>): Sample
    requires s != []
  {
    s[|s| - 1]
  }

  /** Any two samples of the window are at least SAMPLE_INTERVAL apart, in order. */
  ghost predicate Spaced(s: seq<Sample>)
  {
    forall i, j :: 0 <= i < j < |s| ==> s[i].time + SAMPLE_INTERVAL <= s[j].time
  }

  /** No sample is older than WINDOW_SECONDS before the newest. */
  ghost predicate InWindow(s: seq<Sample>)
  {
    forall i :: 0 <= i < |s| ==> s[i].time >= s[|s| - 1].time - WINDOW_SECONDS
  }

  // ---------------------------------------------------------------------
  // Pruning

  /** The samples at or after `cutoff`, in their original order. */
  function Prune(s: seq<Sample>, cutoff: int): (r: seq<Sample>)
    ensures |r| <= |s|
    ensures forall x :: x in r <==> x in s && x.time >= cutoff
  {
    if s == [] then []
    else (if s[0].time >= cutoff then [s[0]] else []) + Prune(s[1..], cutoff)
  }

  /** The number of leading samples older than `cutoff`. */
  function Expired(s: seq<Sample>, cutoff: int): (k: nat)
    ensures k <= |s|
    ensures forall i :: 0 <= i < k ==> s[i].time < cutoff
  {
    if s == [] || s[0].time >= cutoff then 0 else 1 + Expired(s[1..], cutoff)
  }

  lemma {:induction false} PruneKeepsAll(s: seq<Sample>, cutoff: int)
    requires forall i :: 0 <= i < |s| ==> s[i].time >= cutoff
    ensures Prune(s, cutoff) == s
  {
    if s != [] {
      PruneKeepsAll(s[1..], cutoff);
    }
  }

  /** On a time-ordered window, pruning drops a prefix: what remains is a
      suffix, so relative order is kept. */
  lemma {:induction false} PruneIsSuffix(s: seq<Sample>, cutoff: int)
    requires Spaced(s)
    ensures Prune(s, cutoff) == s[Expired(s, cutoff)..]
  {
    if s == [] {
    } else if s[0].time >= cutoff {
      PruneKeepsAll(s, cutoff);
    } else {
      assert Spaced(s[1..]);
      PruneIsSuffix(s[1..], cutoff);
      assert s[1..][Expired(s[1..], cutoff)..] == s[1 + Expired(s[1..], cutoff)..];
    }
  }

  /** A sample appended after the cutoff survives pruning as the last element. */
  lemma {:induction false} PruneAppend(s: seq<Sample>, x: Sample, cutoff: int)
    requires x.time >= cutoff
    ensures Prune(s + [x], cutoff) == Prune(s, cutoff) + [x]
  {
    if s == [] {
      assert [] + [x] == [x];
    } else {
      assert (s + [x])[1..] == s[1..] + [x];
      PruneAppend(s[1..], x, cutoff);
    }
  }

  // ---------------------------------------------------------------------
  // Summing the per-day totals

  function DailyOf(daily: map<int, real>, day: int): real
  {
    if day in daily then daily[day] else 0.0
  }

  /** The sum of a map's values. */
  ghost function Total(m: map<int, real>): real
    decreases |m|
  {
    if m == map[] then 0.0
    else
      var k := SomeKey(m);
      m[k] + Total(m - {k})
  }

  ghost function SomeKey(m: map<int, real>): (k: int)
    requires m != map[]
    ensures k in m
  {
    assert exists k :: k in m by {
      if forall k :: k !in m { assert false; }
    }
    var k :| k in m; k
  }

  /** Any key can be taken out first. */
  lemma {:induction false} TotalRemove(m: map<int, real>, k: int)
    requires k in m
    ensures Total(m) == m[k] + Total(m - {k})
    decreases |m|
  {
    var j := SomeKey(m);
    if j != k {
      assert (m - {j}).Keys == m.Keys - {j};
      assert |m - {j}| < |m|;
      TotalRemove(m - {j}, k);
      assert (m - {k}).Keys == m.Keys - {k};
      assert |m - {k}| < |m|;
      TotalRemove(m - {k}, j);
      assert (m - {j}) - {k} == (m - {k}) - {j};
    }
  }

  /** Adding `delta` to one day's entry adds `delta` to the sum. */
  lemma AddToDay(m: map<int, real>, day: int, delta: real)
    ensures Total(m[day := DailyOf(m, day) + delta]) == Total(m) + delta
  {
    var m' := m[day := DailyOf(m, day) + delta];
    TotalRemove(m', day);
    assert m' - {day} == m - {day};
    if day in m {
      TotalRemove(m, day);
    } else {
      assert m - {day} == m;
    }
  }

  // ---------------------------------------------------------------------
  // The tracker's state and one add_sample call

  datatype TrackerState = TrackerState(
    samples: seq<Sample>,
    chargingDetected: bool,
    lastEnergy: Option<real>,
    lastDistance: Option<real>,
    lastSampleTime: Option<int>,
    daily: map<int, real>,
    total: real)

  /** A freshly constructed tracker. */
  function Initial(): TrackerState
  {
    TrackerState([], false, None, None, None, map[], 0.0)
  }

  /** The window is time-ordered and at most 30 minutes long, the `last_*`
      fields describe its newest sample (and are unset exactly when it is
      empty), and the lifetime total is the sum of the per-day totals. */
  ghost predicate Inv(st: TrackerState)
  {
    && Spaced(st.samples)
    && InWindow(st.samples)
    && (st.samples == [] <==> st.lastSampleTime.None?)
    && (st.samples == [] <==> st.lastEnergy.None?)
    && (st.samples == [] <==> st.lastDistance.None?)
    && (st.samples != [] ==>
          Last(st.samples) == Sample(st.lastSampleTime.value, st.lastEnergy.value, st.lastDistance.value))
    && st.total == Total(st.daily)
  }

  /** True when a sample at time `t` comes too soon after the last accepted one. */
  predicate TooSoon(st: TrackerState, t: int)
  {
    st.lastSampleTime.Some? && t - st.lastSampleTime.value < SAMPLE_INTERVAL
  }

  /** True when the energy rose by more than the charging threshold. */
  predicate IsCharging(st: TrackerState, energy: real)
  {
    st.lastEnergy.Some? && energy - st.lastEnergy.value > CHARGING_THRESHOLD
  }

  /** The charge-detection part of add_sample: a rise above the threshold
      empties the window; otherwise the signed delta is booked on the day of
      `t` and on the lifetime total.  The first sample books nothing. */
  function Counted(st: TrackerState, dayOf: int -> int, t: int, energy: real): TrackerState
  {
    if st.lastEnergy.None? then st
    else if IsCharging(st, energy) then st.(chargingDetected := true, samples := [])
    else
      var delta := energy - st.lastEnergy.value;
      var day := dayOf(t);
      st.(chargingDetected := false,
          daily := st.daily[day := DailyOf(st.daily, day) + delta],
          total := st.total + delta)
  }

  /** The window part of add_sample: append the sample, remember it as the
      last one, and prune everything older than 30 minutes before it. */
  function Appended(st: TrackerState, x: Sample): TrackerState
  {
    st.(samples := Prune(st.samples + [x], x.time - WINDOW_SECONDS),
        lastEnergy := Some(x.energy),
        lastDistance := Some(x.distance),
        lastSampleTime := Some(x.time))
  }

  /** One add_sample call at time `t` (the calendar day of a timestamp is
      given by `dayOf`). */
  function Step(st: TrackerState, dayOf: int -> int, t: int, energy: real, distance: real): TrackerState
  {
    if TooSoon(st, t) then st
    else Appended(Counted(st, dayOf, t, energy), Sample(t, energy, distance))
  }

  /** The sampling gate: a sample less than a minute after the last accepted
      one (or earlier than it) changes nothing. */
  lemma StepGate(st: TrackerState, dayOf: int -> int, t: int, energy: real, distance: real)
    requires st.lastSampleTime.Some? && t < st.lastSampleTime.value + SAMPLE_INTERVAL
    ensures Step(st, dayOf, t, energy, distance) == st
  {
  }

  /** Charging: a rise of more than 0.2 kWh restarts the window with the new
      sample alone and leaves the consumption totals as they were. */
  lemma StepCharging(st: TrackerState, dayOf: int -> int, t: int, energy: real, distance: real)
    requires !TooSoon(st, t) && st.lastEnergy.Some? && energy - st.lastEnergy.value > CHARGING_THRESHOLD
    ensures var st' := Step(st, dayOf, t, energy, distance);
      st'.chargingDetected && st'.samples == [Sample(t, energy, distance)] &&
      st'.daily == st.daily && st'.total == st.total
  {
    PruneAppend([], Sample(t, energy, distance), t - WINDOW_SECONDS);
  }

  /** No charging: the signed energy delta (negative while consuming) is added
      both to the sample's day and to the lifetime total. */
  lemma StepAccumulates(st: TrackerState, dayOf: int -> int, t: int, energy: real, distance: real)
    requires !TooSoon(st, t) && st.lastEnergy.Some? && energy - st.lastEnergy.value <= CHARGING_THRESHOLD
    ensures var st' := Step(st, dayOf, t, energy, distance);
      var delta := energy - st.lastEnergy.value;
      !st'.chargingDetected &&
      st'.daily == st.daily[dayOf(t) := DailyOf(st.daily, dayOf(t)) + delta] &&
      st'.total == st.total + delta
  {
  }

  /** The first sample ever changes neither the totals nor the charging flag. */
  lemma StepFirstSample(st: TrackerState, dayOf: int -> int, t: int, energy: real, distance: real)
    requires Inv(st) && st.samples == []
    ensures var st' := Step(st, dayOf, t, energy, distance);
      st'.samples == [Sample(t, energy, distance)] &&
      st'.daily == st.daily && st'.total == st.total && st'.chargingDetected == st.chargingDetected
  {
    PruneAppend([], Sample(t, energy, distance), t - WINDOW_SECONDS);
  }

  /** The index of the first old sample that survives an accepted add_sample:
      none survive a charging reset; otherwise the expired prefix goes. */
  function FirstKept(st: TrackerState, t: int, energy: real): (k: nat)
    ensures k <= |st.samples|
  {
    if IsCharging(st, energy) then |st.samples| else Expired(st.samples, t - WINDOW_SECONDS)
  }

  /** An accepted sample keeps a suffix of the old window (nothing after a
      charging reset) and appends itself. */
  lemma {:induction false} StepKeepsSuffix(st: TrackerState, dayOf: int -> int, t: int, energy: real, distance: real)
    requires Spaced(st.samples) && !TooSoon(st, t)
    ensures Step(st, dayOf, t, energy, distance).samples ==
            st.samples[FirstKept(st, t, energy)..] + [Sample(t, energy, distance)]
  {
    var x := Sample(t, energy, distance);
    var cutoff := t - WINDOW_SECONDS;
    var c := Counted(st, dayOf, t, energy);
    if IsCharging(st, energy) {
      assert c.samples == [];
      PruneAppend([], x, cutoff);
      assert st.samples[FirstKept(st, t, energy)..] == [];
    } else {
      assert c.samples == st.samples;
      PruneAppend(st.samples, x, cutoff);
      PruneIsSuffix(st.samples, cutoff);
    }
  }

  /** After every accepted sample: the `last_*` fields are the new sample, the
      new sample closes the window, every retained sample is at most 30
      minutes older, the retained samples are a suffix of what was there
      before (plus the new one), and the window grew by at most one. */
  lemma {:induction false} StepWindow(st: TrackerState, dayOf: int -> int, t: int, energy: real, distance: real)
    requires Inv(st) && !TooSoon(st, t)
    ensures var st' := Step(st, dayOf, t, energy, distance);
      var x := Sample(t, energy, distance);
      && st'.lastEnergy == Some(energy) && st'.lastDistance == Some(distance) && st'.lastSampleTime == Some(t)
      && st'.samples != [] && Last(st'.samples) == x
      && (forall i :: 0 <= i < |st'.samples| ==> st'.samples[i].time >= t - WINDOW_SECONDS)
      && st'.samples == st.samples[FirstKept(st, t, energy)..] + [x]
      && |st'.samples| <= |st.samples| + 1
  {
    var x := Sample(t, energy, distance);
    var cutoff := t - WINDOW_SECONDS;
    var c := Counted(st, dayOf, t, energy);
    var samples' := Prune(c.samples + [x], cutoff);
    assert Step(st, dayOf, t, energy, distance).samples == samples';
    StepKeepsSuffix(st, dayOf, t, energy, distance);
    forall i | 0 <= i < |samples'|
      ensures samples'[i].time >= cutoff
    {
      assert samples'[i] in samples';
    }
  }

  /** Every sample in a valid window is at least a minute before time `t`
      whenever `t` passes the gate. */
  lemma {:induction false} GatePassedMeansLater(st: TrackerState, t: int)
    requires Inv(st) && !TooSoon(st, t)
    ensures forall i :: 0 <= i < |st.samples| ==> st.samples[i].time + SAMPLE_INTERVAL <= t
  {
    if st.samples != [] {
      var n := |st.samples|;
      forall i | 0 <= i < n
        ensures st.samples[i].time + SAMPLE_INTERVAL <= t
      {
        if i < n - 1 {
          assert st.samples[i].time + SAMPLE_INTERVAL <= st.samples[n - 1].time;
        }
      }
    }
  }

  /** A suffix of a time-ordered window followed by a sample at least a
      minute after all of it is time-ordered. */
  lemma SpacedSuffixAppend(s: seq<Sample>, k: nat, x: Sample)
    requires Spaced(s) && k <= |s|
    requires forall i :: 0 <= i < |s| ==> s[i].time + SAMPLE_INTERVAL <= x.time
    ensures Spaced(s[k..] + [x])
  {
    var s' := s[k..] + [x];
    forall i, j | 0 <= i < j < |s'|
      ensures s'[i].time + SAMPLE_INTERVAL <= s'[j].time
    {
      assert s'[i] == s[k + i];
      if j < |s'| - 1 {
        assert s'[j] == s[k + j];
      }
    }
  }

  /** Booking a delta keeps the lifetime total equal to the sum of the days. */
  lemma CountedKeepsTotal(st: TrackerState, dayOf: int -> int, t: int, energy: real)
    requires st.total == Total(st.daily)
    ensures var c := Counted(st, dayOf, t, energy); c.total == Total(c.daily)
  {
    if st.lastEnergy.Some? && !IsCharging(st, energy) {
      AddToDay(st.daily, dayOf(t), energy - st.lastEnergy.value);
    }
  }

  /** `add_sample` keeps the tracker's invariant. */
  lemma {:induction false} StepPreservesInv(st: TrackerState, dayOf: int -> int, t: int, energy: real, distance: real)
    requires Inv(st)
    ensures Inv(Step(st, dayOf, t, energy, distance))
  {
    if !TooSoon(st, t) {
      var x := Sample(t, energy, distance);
      var c := Counted(st, dayOf, t, energy);
      var st' := Appended(c, x);
      assert st' == Step(st, dayOf, t, energy, distance);
      StepWindow(st, dayOf, t, energy, distance);
      GatePassedMeansLater(st, t);
      SpacedSuffixAppend(st.samples, FirstKept(st, t, energy), x);
      assert Spaced(st'.samples);
      assert InWindow(st'.samples);
      CountedKeepsTotal(st, dayOf, t, energy);
      assert st'.total == Total(st'.daily);
    }
  }

  // ---------------------------------------------------------------------
  // The consumption estimate

  /** The estimate over the window's first and last samples, or None when the
      window is too short, the span is outside 2 to 60 minutes, the changes
      are too small to trust, too much energy was recovered, or the
      efficiency is outside 0.05 to 0.5 kWh/km. */
  function Consumption(window: seq<Sample>): (r: Option<Trip>)
    ensures r.Some? ==> |window| >= 2
    ensures r.Some? ==>
      r.value == Trip(window[0].energy - Last(window).energy, Last(window).distance - window[0].distance)
    ensures r.Some? ==> 120 <= Last(window).time - window[0].time <= 3600
    ensures r.Some? ==> r.value.distance >= 0.2 && r.value.energy >= 0.05
    ensures r.Some? ==> 0.05 * r.value.distance <= r.value.energy <= 0.5 * r.value.distance
  {
    if |window| < 2 then None
    else
      var first, last := window[0], Last(window);
      var minutes := (last.time - first.time) as real / 60.0;
      if minutes < 2.0 || minutes > 60.0 then None
      else
        var energyDiff := first.energy - last.energy;
        var distanceDiff := last.distance - first.distance;
        if Abs(energyDiff) < 0.05 || distanceDiff < 0.2 then None
        else if energyDiff < -0.5 || distanceDiff <= 0.0 then None
        else
          var efficiency := energyDiff / distanceDiff;
          if !(0.05 <= efficiency <= 0.5) then None
          else
            DivBounds(energyDiff, distanceDiff);
            Some(Trip(energyDiff, distanceDiff))
  }

  function Abs(x: real): real
  {
    if x < 0.0 then -x else x
  }

  /** A plausible trip, stated without the redundant guards: a span of 2 to 60
      minutes, at least 0.2 km and 0.05 kWh, and 0.05 to 0.5 kWh per km. */
  ghost predicate Plausible(span: int, energy: real, distance: real)
  {
    120 <= span <= 3600 && distance >= 0.2 && energy >= 0.05 &&
    0.05 * distance <= energy <= 0.5 * distance
  }

  /** The guard chain accepts exactly the plausible trips: the "too much
      recovery" and "no distance" guards never reject anything the other
      guards let through. */
  lemma ConsumptionIffPlausible(window: seq<Sample>)
    requires |window| >= 2
    ensures Consumption(window).Some? <==>
      Plausible(Last(window).time - window[0].time,
                window[0].energy - Last(window).energy,
                Last(window).distance - window[0].distance)
  {
    var e := window[0].energy - Last(window).energy;
    var d := Last(window).distance - window[0].distance;
    if Plausible(Last(window).time - window[0].time, e, d) {
      assert e / d >= 0.05 by { DivBounds(e, d); }
      assert e / d <= 0.5 by { DivBounds(e, d); }
    }
  }

  lemma DivBounds(e: real, d: real)
    requires d > 0.0
    ensures 0.05 <= e / d <==> 0.05 * d <= e
    ensures e / d <= 0.5 <==> e <= 0.5 * d
  {
    assert e / d * d == e;
  }

  /** In a tracker's window the span is at most 30 minutes, so the "longer
      than 60 minutes" guard never fires. */
  lemma SpanGuardUnreachable(st: TrackerState)
    requires Inv(st) && |st.samples| >= 2
    ensures (Last(st.samples).time - st.samples[0].time) as real / 60.0 <= 30.0
  {
  }

  // ---------------------------------------------------------------------
  // The stateful tracker

  class TripEnergyTracker {
    var samples: seq<Sample>
    var chargingDetected: bool
    var lastEnergy: Option<real>
    var lastDistance: Option<real>
    var lastSampleTime: Option<int>
    var dailyConsumption: map<int, real>
    var totalConsumption: real
    /** The calendar day of a timestamp (local time zone, left abstract). */
    const dayOf: int -> int

    function State(): TrackerState
      reads this
    {
      TrackerState(samples, chargingDetected, lastEnergy, lastDistance, lastSampleTime,
                   dailyConsumption, totalConsumption)
    }

    ghost predicate Valid()
      reads this
    {
      Inv(State())
    }

    constructor (dayOf: int -> int)
      ensures Valid() && State() == Initial() && this.dayOf == dayOf
    {
      samples := [];
      chargingDetected := false;
      lastEnergy := None;
      lastDistance := None;
      lastSampleTime := None;
      dailyConsumption := map[];
      totalConsumption := 0.0;
      this.dayOf := dayOf;
    }

    /** add_sample: feeds one observation taken at `timestamp`. */
    method AddSample(timestamp: int, energy: real, distance: real)
      requires Valid()
      modifies this
      ensures Valid()
      ensures State() == Step(old(State()), dayOf, timestamp, energy, distance)
    {
      if lastSampleTime.Some? && timestamp - lastSampleTime.value < SAMPLE_INTERVAL {
        return;
      }
      ghost var st := State();
      if lastEnergy.Some? {
        var energyDiff := energy - lastEnergy.value;
        if energyDiff > CHARGING_THRESHOLD {
          chargingDetected := true;
          samples := [];
        } else {
          chargingDetected := false;
          var day := dayOf(timestamp);
          if day !in dailyConsumption {
            dailyConsumption := dailyConsumption[day := 0.0];
          }
          dailyConsumption := dailyConsumption[day := dailyConsumption[day] + energyDiff];
          totalConsumption := totalConsumption + energyDiff;
        }
      }
      ghost var c := State();
      assert c == Counted(st, dayOf, timestamp, energy);
      var x := Sample(timestamp, energy, distance);
      samples := samples + [x];
      lastEnergy := Some(energy);
      lastDistance := Some(distance);
      lastSampleTime := Some(timestamp);
      samples := Prune(samples, timestamp - WINDOW_SECONDS);
      assert State() == Appended(c, x);
      StepPreservesInv(st, dayOf, timestamp, energy, distance);
    }

    /** calculate_consumption: the estimate over the current window. */
    function CalculateConsumption(): (r: Option<Trip>)
      reads this
      requires Valid()
      ensures r.Some? ==> r.value.distance >= 0.2 && r.value.energy > 0.0
    {
      Consumption(samples)
    }

    /** get_daily_consumption: the summed energy deltas of one day, 0 for a
        day with none. */
    function GetDailyConsumption(day: int): (r: real)
      reads this
      ensures day !in dailyConsumption ==> r == 0.0
    {
      DailyOf(dailyConsumption, day)
    }

    /** get_total_consumption: the lifetime total, which is the sum of the
        per-day totals. */
    function GetTotalConsumption(): (r: real)
      reads this
      requires Valid()
      ensures r == Total(dailyConsumption)
    {
      totalConsumption
    }
  }

  // ---------------------------------------------------------------------
  // Worked scenarios

  /** Two observations 30 seconds apart yield one accepted sample. */
  lemma ThirtySecondsApartIsOneSample(dayOf: int -> int)
    ensures var st1 := Step(Initial(), dayOf, 0, 50.0, 100.0);
      Step(st1, dayOf, 30, 49.9, 100.5) == st1 && |st1.samples| == 1
  {
    PruneAppend([], Sample(0, 50.0, 100.0), -WINDOW_SECONDS);
  }

  /** Ten minutes of steady driving gives an estimate: 1 kWh over 5 km. */
  lemma SteadyDriveGivesEstimate(dayOf: int -> int)
    ensures var st := Step(Step(Initial(), dayOf, 0, 50.0, 100.0), dayOf, 600, 49.0, 105.0);
      Consumption(st.samples) == Some(Trip(1.0, 5.0))
  {
    var s0, s1 := Sample(0, 50.0, 100.0), Sample(600, 49.0, 105.0);
    PruneAppend([], s0, -WINDOW_SECONDS);
    PruneAppend([s0], s1, 600 - WINDOW_SECONDS);
    PruneKeepsAll([s0], 600 - WINDOW_SECONDS);
    assert [s0] + [s1] == [s0, s1];
  }

  /** The charging threshold is strict: +0.21 kWh resets the window, so no
      estimate is possible; +0.19 kWh is accumulated as an ordinary delta. */
  lemma ChargingThresholdBoundary(st: TrackerState, dayOf: int -> int, t: int, distance: real)
    requires Inv(st) && st.samples != [] && !TooSoon(st, t)
    ensures var up := Step(st, dayOf, t, st.lastEnergy.value + 0.21, distance);
      up.chargingDetected && |up.samples| == 1 && Consumption(up.samples) == None
    ensures var small := Step(st, dayOf, t, st.lastEnergy.value + 0.19, distance);
      !small.chargingDetected && small.total == st.total + 0.19
  {
    StepCharging(st, dayOf, t, st.lastEnergy.value + 0.21, distance);
  }
}
