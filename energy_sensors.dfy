/**
 * The two sensors that own a trip-energy tracker.  On every refresh each
 * one reads the battery's remaining energy and the odometer from the
 * payload, feeds them to its own tracker as a sample taken "now", and then
 * publishes the tracker's window estimate: the energy used (kWh) or the
 * energy per kilometre (kWh/km), rounded to two decimals.
 */
module EnergySensors {
  import opened Snapshot
  import opened Metrics
  import opened TripTracker

  /** The odometer field (tenths of a km); a missing key reads as null. */
  function Mileage(data: Snapshot): Value
  {
    Field(data, "vehicleBasic", "mileage", Null)
  }

  /** Any of the four inputs is an explicit (or, for the odometer, implicit) null. */
  predicate TripInputMissing(data: Snapshot)
  {
    EnergyInputMissing(data) || Mileage(data) == Null
  }

  /** The sample a trip sensor's refresh derives from the payload: the
      remaining energy in kWh and the odometer in km; `Ok(None)` when an input
      is null, `Raised` when one of them is not a number. */
  function TripReading(data: Snapshot): (r: Result<Option<(real, real)>>)
    ensures r == Ok(None) <==> TripInputMissing(data)
    ensures r == Raised <==>
      !TripInputMissing(data) &&
      !(PowerPercentage(data).Num? && BatteryCapacity(data).Num? &&
        BatteryVoltage(data).Num? && Mileage(data).Num?)
    ensures r.Ok? && r.value.Some? ==>
      r.value.value.0 == EnergyKwh(PowerPercentage(data).x, BatteryCapacity(data).x, BatteryVoltage(data).x) &&
      r.value.value.1 == Mileage(data).x / DISTANCE_SCALE
  {
    var pp, cap, mv, km := PowerPercentage(data), BatteryCapacity(data), BatteryVoltage(data), Mileage(data);
    if pp == Null || cap == Null || mv == Null || km == Null then Ok(None)
    else match (Float(pp), Float(mv), Float(cap), Float(km))
      case (Ok(p), Ok(v), Ok(c), Ok(m)) => Ok(Some((EnergyKwh(p, c, v), m / DISTANCE_SCALE)))
      case _ => Raised
  }

  /** The trip sensors and the remaining-energy sensor agree: whenever a trip
      sensor takes a sample, the remaining-energy sensor shows that sample's
      energy, rounded. */
  lemma TripEnergyMatchesRemainingEnergy(data: Snapshot)
    requires TripReading(data).Ok? && TripReading(data).value.Some?
    ensures RemainingEnergy(data) == Ok(Some(Round2(TripReading(data).value.value.0)))
  {
  }

  /** Without an odometer reading no sample is taken, even though the energy
      inputs default to 0 and the remaining-energy sensor still reports. */
  lemma NoOdometerNoSample(data: Snapshot)
    requires "vehicleBasic" !in data
    ensures TripReading(data) == Ok(None)
  {
  }

  // ---------------------------------------------------------------------
  // Rounding keeps hundredth bounds

  /** A lower bound that is a whole number of hundredths survives rounding. */
  lemma Round2AtLeast(x: real, lo: real)
    requires (lo * 100.0).Floor as real == lo * 100.0
    requires lo <= x
    ensures lo <= Round2(x)
  {
    var r := Round2(x);
    var k := (r * 100.0).Floor;
    var m := (lo * 100.0).Floor;
    assert k as real == r * 100.0;
    assert r * 100.0 >= x * 100.0 - 0.5;
    assert x * 100.0 >= lo * 100.0;
    assert k >= m;
  }

  /** An upper bound that is a whole number of hundredths survives rounding. */
  lemma Round2AtMost(x: real, hi: real)
    requires (hi * 100.0).Floor as real == hi * 100.0
    requires x <= hi
    ensures Round2(x) <= hi
  {
    var r := Round2(x);
    var k := (r * 100.0).Floor;
    var n := (hi * 100.0).Floor;
    assert k as real == r * 100.0;
    assert r * 100.0 <= x * 100.0 + 0.5;
    assert x * 100.0 <= hi * 100.0;
    assert k <= n;
  }

  // ---------------------------------------------------------------------
  // What each sensor publishes for a window estimate

  /** TripEnergyConsumptionKwh: the estimated energy, rounded. */
  function KwhState(c: Option<Trip>): (r: Option<real>)
    ensures r.Some? <==> c.Some?
    ensures c.Some? ==> r.value - 0.005 <= c.value.energy <= r.value + 0.005
  {
    if c.Some? then Some(Round2(c.value.energy)) else None
  }

  /** EnergyConsumptionPerKm: energy over distance, rounded; none when the
      distance is not positive. */
  function PerKmState(c: Option<Trip>): (r: Option<real>)
    ensures r.Some? ==> c.Some? && c.value.distance > 0.0
    ensures r.Some? ==> r.value - 0.005 <= c.value.energy / c.value.distance <= r.value + 0.005
  {
    if c.Some? then
      if c.value.distance > 0.0 then Some(Round2(c.value.energy / c.value.distance)) else None
    else None
  }

  /** Every estimate of a window passes the distance check, so the per-km
      sensor reports exactly when the kWh sensor does; the published values
      stay within the plausibility bounds after rounding. */
  lemma {:induction false} PublishedBounds(window: seq<Sample>)
    ensures PerKmState(Consumption(window)).Some? <==> Consumption(window).Some?
    ensures KwhState(Consumption(window)).Some? ==> KwhState(Consumption(window)).value >= 0.05
    ensures PerKmState(Consumption(window)).Some? ==>
      0.05 <= PerKmState(Consumption(window)).value <= 0.5
  {
    var c := Consumption(window);
    if c.Some? {
      assert c.value.distance >= 0.2;
      Round2AtLeast(c.value.energy, 0.05);
      var eff := c.value.energy / c.value.distance;
      assert 0.05 <= eff <= 0.5 by {
        DivBounds(c.value.energy, c.value.distance);
      }
      Round2AtLeast(eff, 0.05);
      Round2AtMost(eff, 0.5);
    }
  }

  // ---------------------------------------------------------------------
  // The sensors

  /** Single-trip energy in kWh. */
  class TripEnergyConsumptionKwh {
    var state: Option<real>
    const tracker: TripEnergyTracker

    ghost predicate Valid()
      reads this, tracker
    {
      tracker.Valid()
    }

    constructor (dayOf: int -> int)
      ensures Valid() && fresh(tracker)
      ensures state.None? && tracker.State() == Initial() && tracker.dayOf == dayOf
    {
      state := None;
      tracker := new TripEnergyTracker(dayOf);
    }

    /** update_state: a payload whose inputs are all numbers becomes a sample
        taken at `now`, and the state becomes the rounded estimate; a null
        input clears the state without sampling; a non-number raises and
        changes nothing. */
    method UpdateState(data: Snapshot, now: int) returns (raised: bool)
      requires Valid()
      modifies this, tracker
      ensures Valid()
      ensures raised <==> TripReading(data).Raised?
      ensures raised ==> state == old(state) && tracker.State() == old(tracker.State())
      ensures TripReading(data) == Ok(None) ==> state.None? && tracker.State() == old(tracker.State())
      ensures TripReading(data).Ok? && TripReading(data).value.Some? ==>
        var (energy, distance) := TripReading(data).value.value;
        tracker.State() == Step(old(tracker.State()), tracker.dayOf, now, energy, distance) &&
        state == KwhState(Consumption(tracker.samples))
    {
      match TripReading(data)
      case Raised =>
        raised := true;
      case Ok(None) =>
        raised := false;
        state := None;
      case Ok(Some((energy, distance))) =>
        raised := false;
        tracker.AddSample(now, energy, distance);
        var result := tracker.CalculateConsumption();
        if result.Some? {
          state := Some(Round2(result.value.energy));
        } else {
          state := None;
        }
    }

    /** async_update: refreshes only from a payload that is present and
        non-empty. */
    method AsyncUpdate(data: Option<Snapshot>, now: int) returns (raised: bool)
      requires Valid()
      modifies this, tracker
      ensures Valid()
      ensures !Refreshes(data) ==>
        !raised && state == old(state) && tracker.State() == old(tracker.State())
      ensures Refreshes(data) ==> (raised <==> TripReading(data.value).Raised?)
      ensures Refreshes(data) && raised ==> state == old(state) && tracker.State() == old(tracker.State())
      ensures Refreshes(data) && TripReading(data.value) == Ok(None) ==>
        state.None? && tracker.State() == old(tracker.State())
      ensures Refreshes(data) && TripReading(data.value).Ok? && TripReading(data.value).value.Some? ==>
        var (energy, distance) := TripReading(data.value).value.value;
        tracker.State() == Step(old(tracker.State()), tracker.dayOf, now, energy, distance) &&
        state == KwhState(Consumption(tracker.samples))
    {
      if Refreshes(data) {
        raised := UpdateState(data.value, now);
      } else {
        raised := false;
      }
    }

    /** The "daily_consumption" attribute for day `day`. */
    function GetDailyConsumption(day: int): (r: real)
      reads this, tracker
      ensures day !in tracker.dailyConsumption ==> r == 0.0
    {
      tracker.GetDailyConsumption(day)
    }

    /** The "total_consumption" attribute: the sum of all per-day values. */
    function GetTotalConsumption(): (r: real)
      reads this, tracker
      requires Valid()
      ensures r == Total(tracker.dailyConsumption)
    {
      tracker.GetTotalConsumption()
    }
  }

  /** Energy per kilometre over the current window. */
  class EnergyConsumptionPerKm {
    var state: Option<real>
    const tracker: TripEnergyTracker

    ghost predicate Valid()
      reads this, tracker
    {
      tracker.Valid()
    }

    constructor (dayOf: int -> int)
      ensures Valid() && fresh(tracker)
      ensures state.None? && tracker.State() == Initial() && tracker.dayOf == dayOf
    {
      state := None;
      tracker := new TripEnergyTracker(dayOf);
    }

    /** update_state: as for the kWh sensor, but the state is the rounded
        energy per km of the estimate. */
    method UpdateState(data: Snapshot, now: int) returns (raised: bool)
      requires Valid()
      modifies this, tracker
      ensures Valid()
      ensures raised <==> TripReading(data).Raised?
      ensures raised ==> state == old(state) && tracker.State() == old(tracker.State())
      ensures TripReading(data) == Ok(None) ==> state.None? && tracker.State() == old(tracker.State())
      ensures TripReading(data).Ok? && TripReading(data).value.Some? ==>
        var (energy, distance) := TripReading(data).value.value;
        tracker.State() == Step(old(tracker.State()), tracker.dayOf, now, energy, distance) &&
        state == PerKmState(Consumption(tracker.samples))
    {
      match TripReading(data)
      case Raised =>
        raised := true;
      case Ok(None) =>
        raised := false;
        state := None;
      case Ok(Some((energy, distance))) =>
        raised := false;
        tracker.AddSample(now, energy, distance);
        var result := tracker.CalculateConsumption();
        if result.Some? {
          if result.value.distance > 0.0 {
            state := Some(Round2(result.value.energy / result.value.distance));
          } else {
            state := None;
          }
        } else {
          state := None;
        }
    }

    /** async_update: refreshes only from a payload that is present and
        non-empty. */
    method AsyncUpdate(data: Option<Snapshot>, now: int) returns (raised: bool)
      requires Valid()
      modifies this, tracker
      ensures Valid()
      ensures !Refreshes(data) ==>
        !raised && state == old(state) && tracker.State() == old(tracker.State())
      ensures Refreshes(data) ==> (raised <==> TripReading(data.value).Raised?)
      ensures Refreshes(data) && raised ==> state == old(state) && tracker.State() == old(tracker.State())
      ensures Refreshes(data) && TripReading(data.value) == Ok(None) ==>
        state.None? && tracker.State() == old(tracker.State())
      ensures Refreshes(data) && TripReading(data.value).Ok? && TripReading(data.value).value.Some? ==>
        var (energy, distance) := TripReading(data.value).value.value;
        tracker.State() == Step(old(tracker.State()), tracker.dayOf, now, energy, distance) &&
        state == PerKmState(Consumption(tracker.samples))
    {
      if Refreshes(data) {
        raised := UpdateState(data.value, now);
      } else {
        raised := false;
      }
    }
  }
}
