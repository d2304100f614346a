/**
 * The stateless sensors: unit conversions from raw payload fields to
 * physical units, and the fixed lookup tables that classify status codes
 * and pick icons.  Each function gives what the sensor's refresh assigns to
 * its state (and icon), or `Raised` when that refresh throws.
 */
module Metrics {
  import opened Snapshot

  // Scale divisors of the raw fields.
  const PERCENTAGE_SCALE: real := 10000.0  // hundredths of a percent -> fraction
  const VOLTAGE_SCALE: real := 1000.0      // mV -> V
  const CURRENT_SCALE: real := 1000.0      // mA -> A
  const DISTANCE_SCALE: real := 10.0       // 0.1 km -> km
  const POWER_SCALE: real := 1000.0        // W -> kW
  const SPEED_SCALE: real := 10.0          // 0.1 km/h -> km/h

  /** Python's `round(x, 2)` on an exact value: the nearest whole number of
      hundredths, ties going to the even one. */
  function Round2(x: real): (r: real)
    ensures (r * 100.0).Floor as real == r * 100.0
    ensures x - 0.005 <= r <= x + 0.005
    ensures x * 100.0 - (x * 100.0).Floor as real == 0.5 ==> (r * 100.0).Floor % 2 == 0
  {
    var n := (x * 100.0).Floor;
    var f := x * 100.0 - n as real;
    var k := if f < 0.5 then n else if f > 0.5 then n + 1 else if n % 2 == 0 then n else n + 1;
    assert k as real / 100.0 * 100.0 == k as real;
    k as real / 100.0
  }

  // ---------------------------------------------------------------------
  // Remaining battery energy

  /** Energy left in the traction battery, in kWh, from the state-of-energy
      field (hundredths of a percent), the capacity and the voltage (mV). */
  function EnergyKwh(powerPercentage: real, capacity: real, millivolts: real): real
  {
    powerPercentage / PERCENTAGE_SCALE * capacity * (millivolts / VOLTAGE_SCALE) / POWER_SCALE
  }

  // The three energy inputs; a missing key reads as 0, and a battery voltage
  // that arrives as a non-empty list is replaced by its first element.
  function PowerPercentage(data: Snapshot): Value
  {
    Field(data, "enduranceStatus", "powerPercentage", Num(0.0))
  }

  function BatteryCapacity(data: Snapshot): Value
  {
    Field(data, "enduranceStatus", "bmsBatteryTotalCapacity", Num(0.0))
  }

  function BatteryVoltage(data: Snapshot): Value
  {
    FirstIfList(Field(data, "vehicleExtend", "batVoltage", Num(0.0)))
  }

  /** An input counts as missing only when it is an explicit null. */
  predicate EnergyInputMissing(data: Snapshot)
  {
    PowerPercentage(data) == Null || BatteryCapacity(data) == Null || BatteryVoltage(data) == Null
  }

  /** The remaining-energy sensor (kWh). */
  function RemainingEnergy(data: Snapshot): (r: Result<Option<real>>)
    ensures r == Ok(None) <==> EnergyInputMissing(data)
    ensures r == Raised <==>
      !EnergyInputMissing(data) &&
      !(PowerPercentage(data).Num? && BatteryCapacity(data).Num? && BatteryVoltage(data).Num?)
    ensures r.Ok? && r.value.Some? ==>
      r.value.value == Round2(EnergyKwh(PowerPercentage(data).x, BatteryCapacity(data).x, BatteryVoltage(data).x))
  {
    var pp, cap, mv := PowerPercentage(data), BatteryCapacity(data), BatteryVoltage(data);
    if pp == Null || cap == Null || mv == Null then Ok(None)
    else match (Float(pp), Float(mv), Float(cap))
      case (Ok(p), Ok(v), Ok(c)) => Ok(Some(Round2(EnergyKwh(p, c, v))))
      case _ => Raised
  }

  /** A payload without the energy sections reads as an empty battery, and is
      not reported as unavailable. */
  lemma MissingEnergyFieldsReadAsZero(data: Snapshot)
    requires "enduranceStatus" !in data && "vehicleExtend" !in data
    ensures RemainingEnergy(data) == Ok(Some(0.0))
  {
    assert Round2(0.0) == 0.0;
  }

  /** A one-element voltage list is read as its element. */
  lemma VoltageListIsUnwrapped(data: Snapshot, v: real)
    requires "vehicleExtend" in data && "batVoltage" in data["vehicleExtend"]
    requires data["vehicleExtend"]["batVoltage"] == List([Num(v)])
    ensures BatteryVoltage(data) == Num(v)
  {
  }

  /** An empty voltage list is not unwrapped, and converting it raises. */
  lemma EmptyVoltageListRaises(data: Snapshot)
    requires "vehicleExtend" in data && "batVoltage" in data["vehicleExtend"]
    requires data["vehicleExtend"]["batVoltage"] == List([])
    requires PowerPercentage(data) != Null && BatteryCapacity(data) != Null
    ensures RemainingEnergy(data) == Raised
  {
  }

  // ---------------------------------------------------------------------
  // Power

  /** Electrical power in kW from a voltage in mV and a current in mA. */
  function Kilowatts(millivolts: real, milliamps: real): real
  {
    (millivolts / VOLTAGE_SCALE) * (milliamps / CURRENT_SCALE) / POWER_SCALE
  }

  function ChargeVoltage(data: Snapshot): Value { Field(data, "chargingStatus", "obcChargeVoltage", Null) }
  function ChargeCurrent(data: Snapshot): Value { Field(data, "chargingStatus", "obcChargeCurrent", Null) }
  function TotalVoltage(data: Snapshot): Value { Field(data, "vehicleBasic", "totalVoltage", Null) }
  function TotalCurrent(data: Snapshot): Value { Field(data, "vehicleBasic", "totalCurrent", Null) }
  function SpeedField(data: Snapshot): Value { Field(data, "vehicleBasic", "speed", Null) }

  /** The on-board-charger power sensor (kW). */
  function ChargingPower(data: Snapshot): (r: Result<Option<real>>)
    ensures r == Ok(None) <==> ChargeVoltage(data) == Null || ChargeCurrent(data) == Null
    ensures r.Ok? && r.value.Some? ==>
      ChargeVoltage(data).Num? && ChargeCurrent(data).Num? &&
      r.value.value == Round2(Kilowatts(ChargeVoltage(data).x, ChargeCurrent(data).x))
    ensures ChargeVoltage(data).Num? && ChargeCurrent(data).Num? ==> r.Ok? && r.value.Some?
  {
    var v, c := ChargeVoltage(data), ChargeCurrent(data);
    if v != Null && c != Null then
      match (Float(v), Float(c))
      case (Ok(volts), Ok(amps)) => Ok(Some(Round2(Kilowatts(volts, amps))))
      case _ => Raised
    else Ok(None)
  }

  /** The traction-battery discharge power sensor (kW): only while moving. */
  function DischargingPower(data: Snapshot): (r: Result<Option<real>>)
    ensures r.Ok? && r.value.Some? ==>
      SpeedField(data).Num? && SpeedField(data).x > 0.0 &&
      TotalVoltage(data).Num? && TotalCurrent(data).Num? &&
      r.value.value == Round2(Kilowatts(TotalVoltage(data).x, TotalCurrent(data).x))
    ensures TotalVoltage(data) == Null || TotalCurrent(data) == Null || SpeedField(data) == Null ==> r == Ok(None)
    ensures (TotalVoltage(data) != Null && TotalCurrent(data) != Null &&
             SpeedField(data).Num? && SpeedField(data).x <= 0.0) ==> r == Ok(None)
    ensures (TotalVoltage(data).Num? && TotalCurrent(data).Num? &&
             SpeedField(data).Num? && SpeedField(data).x > 0.0) ==> r.Ok? && r.value.Some?
    ensures r == Raised <==>
      TotalVoltage(data) != Null && TotalCurrent(data) != Null && SpeedField(data) != Null &&
      (!SpeedField(data).Num? || (SpeedField(data).x > 0.0 && !(TotalVoltage(data).Num? && TotalCurrent(data).Num?)))
  {
    var v, c, s := TotalVoltage(data), TotalCurrent(data), SpeedField(data);
    if v != Null && c != Null && s != Null then
      match Float(s)
      case Raised => Raised
      case Ok(speed) =>
        if speed > 0.0 then
          match (Float(v), Float(c))
          case (Ok(volts), Ok(amps)) => Ok(Some(Round2(Kilowatts(volts, amps))))
          case _ => Raised
        else Ok(None)
    else Ok(None)
  }

  // ---------------------------------------------------------------------
  // Speed and ranges: these refreshes have no null guard, so a missing or
  // null field raises.

  /** A raw field in tenths of a unit, converted and rounded. */
  function Tenths(v: Value, scale: real): (r: Result<real>)
    requires scale > 0.0
    ensures r.Ok? <==> v.Num?
    ensures r.Ok? ==> r.value == Round2(v.x / scale)
  {
    match Float(v)
    case Ok(x) => Ok(Round2(x / scale))
    case Raised => Raised
  }

  /** The speed sensor (km/h). */
  function Speed(data: Snapshot): (r: Result<real>)
    ensures r.Ok? <==> SpeedField(data).Num?
    ensures r.Ok? ==> r.value == Round2(SpeedField(data).x / SPEED_SCALE)
  {
    Tenths(SpeedField(data), SPEED_SCALE)
  }

  function PowerResidueMileage(data: Snapshot): Value { Field(data, "enduranceStatus", "powerResidueMileage", Null) }
  function FuelMileageRemaining(data: Snapshot): Value { Field(data, "enduranceStatus", "fuelMileageRemaining", Null) }

  /** The remaining electric range sensor (km). */
  function BatteryRange(data: Snapshot): (r: Result<real>)
    ensures r.Ok? <==> PowerResidueMileage(data).Num?
    ensures r.Ok? ==> r.value == Round2(PowerResidueMileage(data).x / DISTANCE_SCALE)
  {
    Tenths(PowerResidueMileage(data), DISTANCE_SCALE)
  }

  /** The remaining fuel range sensor (km). */
  function FuleRange(data: Snapshot): (r: Result<real>)
    ensures r.Ok? <==> FuelMileageRemaining(data).Num?
    ensures r.Ok? ==> r.value == Round2(FuelMileageRemaining(data).x / DISTANCE_SCALE)
  {
    Tenths(FuelMileageRemaining(data), DISTANCE_SCALE)
  }

  // ---------------------------------------------------------------------
  // Status classification

  datatype Status = Status(state: string, icon: string)

  /** A dictionary lookup with a default, keyed by integer codes: a number
      equal to a key finds it (1.0 finds 1), any other number or null gives
      the default, and a list raises because it cannot be hashed. */
  function Lookup(table: map<int, string>, key: Value, default: string): (r: Result<string>)
    ensures r == Raised <==> key.List?
    ensures key.Num? && key.x == key.x.Floor as real && key.x.Floor in table ==> r == Ok(table[key.x.Floor])
    ensures key.Num? && !(key.x == key.x.Floor as real && key.x.Floor in table) ==> r == Ok(default)
    ensures key.Null? ==> r == Ok(default)
  {
    match key
    case List(_) => Raised
    case Null => Ok(default)
    case Num(x) => if x == x.Floor as real && x.Floor in table then Ok(table[x.Floor]) else Ok(default)
  }

  // Codes 3 to 5 of the vehicle table and 2 and 3 of the charge table are
  // unverified guesses in the source; they are kept as they are.
  const VEHICLE_STATUS_LABELS: map<int, string> :=
    map[1 := "Driving", 2 := "Parked", 3 := "Charging", 4 := "Starting", 5 := "PowerOff"]
  const CHARGE_STATUS_LABELS: map<int, string> :=
    map[1 := "Charging", 2 := "ChargingComplete", 3 := "NotCharging", 4 := "Connected"]

  /** The icon for a vehicle-status name; any other name gets the plain car. */
  function VehicleIcon(name: string): string
  {
    if name == "Driving" then "mdi:car-side"
    else if name == "Parked" then "mdi:parking"
    else if name == "Starting" then "mdi:car-key"
    else if name == "PowerOff" then "mdi:car-off"
    else "mdi:car"
  }

  function ChargeStatusField(data: Snapshot): Value { Field(data, "vehicleBasic", "chargeStatus", Null) }
  function VehicleStatusField(data: Snapshot): Value { Field(data, "vehicleBasic", "vehicleStatus", Null) }

  /** True when a raw code is one of the integers 1 to 5 of the vehicle table. */
  predicate KnownVehicleCode(v: Value)
  {
    v.Num? && v.x == v.x.Floor as real && 1 <= v.x.Floor <= 5
  }

  /** The overall car-status sensor: an active or plugged-in charge status
      wins; otherwise the vehicle status decides. */
  function CarStatus(data: Snapshot): (r: Result<Status>)
    ensures ChargeStatusField(data) == Num(1.0) ==> r == Ok(Status("Charging", "mdi:car-electric"))
    ensures ChargeStatusField(data) == Num(4.0) ==> r == Ok(Status("Connected", "mdi:power-plug"))
    ensures ChargeStatusField(data) != Num(1.0) && ChargeStatusField(data) != Num(4.0) ==>
      (r == Raised <==> VehicleStatusField(data).List?) &&
      (!KnownVehicleCode(VehicleStatusField(data)) && !VehicleStatusField(data).List? ==>
         r == Ok(Status("Unknown", "mdi:car"))) &&
      (r.Ok? ==> r.value.state in VEHICLE_STATUS_LABELS.Values + {"Unknown"}) &&
      (r.Ok? ==> (r.value.icon == "mdi:car" <==> r.value.state in {"Charging", "Unknown"}))
    ensures ChargeStatusField(data) != Num(1.0) && ChargeStatusField(data) != Num(4.0) &&
            KnownVehicleCode(VehicleStatusField(data)) ==>
      var name := VEHICLE_STATUS_LABELS[VehicleStatusField(data).x.Floor];
      r == Ok(Status(name, VehicleIcon(name)))
  {
    var cs := ChargeStatusField(data);
    if cs == Num(1.0) || cs == Num(4.0) then
      match Lookup(CHARGE_STATUS_LABELS, cs, "Unknown")
      case Ok(name) => Ok(Status(name, if cs == Num(1.0) then "mdi:car-electric" else "mdi:power-plug"))
      case Raised => Raised
    else
      match Lookup(VEHICLE_STATUS_LABELS, VehicleStatusField(data), "Unknown")
      case Ok(name) => Ok(Status(name, VehicleIcon(name)))
      case Raised => Raised
  }

  /** The vehicle-status table, code by code, when the charge status does not
      take priority. */
  lemma CarStatusByVehicleCode(data: Snapshot)
    requires ChargeStatusField(data) != Num(1.0) && ChargeStatusField(data) != Num(4.0)
    ensures VehicleStatusField(data) == Num(1.0) ==> CarStatus(data) == Ok(Status("Driving", "mdi:car-side"))
    ensures VehicleStatusField(data) == Num(2.0) ==> CarStatus(data) == Ok(Status("Parked", "mdi:parking"))
    ensures VehicleStatusField(data) == Num(3.0) ==> CarStatus(data) == Ok(Status("Charging", "mdi:car"))
    ensures VehicleStatusField(data) == Num(4.0) ==> CarStatus(data) == Ok(Status("Starting", "mdi:car-key"))
    ensures VehicleStatusField(data) == Num(5.0) ==> CarStatus(data) == Ok(Status("PowerOff", "mdi:car-off"))
  {
  }

  function EngineStatusField(data: Snapshot): Value { Field(data, "vehicleExtend", "engineStatus", Null) }

  /** The engine sensor: 1 is on, 0 is off, anything else unknown. */
  function EngineStatus(data: Snapshot): (r: Result<Status>)
    ensures r == Raised <==> EngineStatusField(data).List?
    ensures EngineStatusField(data) == Num(1.0) ==> r == Ok(Status("on", "mdi:engine-outline"))
    ensures EngineStatusField(data) == Num(0.0) ==> r == Ok(Status("off", "mdi:engine-off"))
    ensures r.Ok? && EngineStatusField(data) != Num(1.0) && EngineStatusField(data) != Num(0.0) ==>
      r.value == Status("unknown", "mdi:engine-off")
  {
    match Lookup(map[1 := "on", 0 := "off"], EngineStatusField(data), "unknown")
    case Ok(name) => Ok(Status(name, if name == "on" then "mdi:engine-outline" else "mdi:engine-off"))
    case Raised => Raised
  }

  /** The charging sensor: 1 is on, 3 is off, anything else unknown. */
  function ChargingStatus(data: Snapshot): (r: Result<Status>)
    ensures r == Raised <==> ChargeStatusField(data).List?
    ensures ChargeStatusField(data) == Num(1.0) ==> r == Ok(Status("on", "mdi:battery-charging"))
    ensures ChargeStatusField(data) == Num(3.0) ==> r == Ok(Status("off", "mdi:ev-station"))
    ensures r.Ok? && ChargeStatusField(data) != Num(1.0) && ChargeStatusField(data) != Num(3.0) ==>
      r.value == Status("unknown", "mdi:ev-station")
  {
    match Lookup(map[1 := "on", 3 := "off"], ChargeStatusField(data), "unknown")
    case Ok(name) => Ok(Status(name, if name == "on" then "mdi:battery-charging" else "mdi:ev-station"))
    case Raised => Raised
  }

  // ---------------------------------------------------------------------
  // Battery and fuel level icons

  const LEVEL_ICONS: seq<string> := [
    "mdi:battery-10", "mdi:battery-20", "mdi:battery-30", "mdi:battery-40", "mdi:battery-50",
    "mdi:battery-60", "mdi:battery-70", "mdi:battery-80", "mdi:battery-90", "mdi:battery"]

  /** The icon for a level in percent: one per ten-percent bucket, each bucket
      closed at its top. */
  function LevelIcon(level: real): (icon: string)
    ensures level <= 10.0 ==> icon == LEVEL_ICONS[0]
    ensures forall k: int :: 1 <= k <= 8 && (10 * k) as real < level <= (10 * k + 10) as real ==> icon == LEVEL_ICONS[k]
    ensures level > 90.0 ==> icon == LEVEL_ICONS[9]
  {
    if level <= 10.0 then "mdi:battery-10"
    else if level <= 20.0 then "mdi:battery-20"
    else if level <= 30.0 then "mdi:battery-30"
    else if level <= 40.0 then "mdi:battery-40"
    else if level <= 50.0 then "mdi:battery-50"
    else if level <= 60.0 then "mdi:battery-60"
    else if level <= 70.0 then "mdi:battery-70"
    else if level <= 80.0 then "mdi:battery-80"
    else if level <= 90.0 then "mdi:battery-90"
    else "mdi:battery"
  }

  /** What a level sensor's refresh leaves behind: the state it assigned, the
      icon it has afterwards, and whether it raised. */
  datatype LevelReading = LevelReading(state: Value, icon: string, raised: bool)

  /** A level refresh: the raw value always becomes the state; a number picks
      the bucket icon; null keeps the previous icon; a list cannot be compared
      with a number, so the refresh raises after assigning the state. */
  function LevelUpdate(level: Value, icon: string): (r: LevelReading)
    ensures r.state == level
    ensures r.raised <==> level.List?
    ensures level.Num? ==> r.icon == LevelIcon(level.x)
    ensures !level.Num? ==> r.icon == icon
  {
    match level
    case Num(x) => LevelReading(level, LevelIcon(x), false)
    case Null => LevelReading(level, icon, false)
    case List(_) => LevelReading(level, icon, true)
  }

  function BatteryLevel(data: Snapshot, icon: string): LevelReading
  {
    LevelUpdate(Field(data, "vehicleBasic", "soc", Null), icon)
  }

  function FuelLevel(data: Snapshot, icon: string): LevelReading
  {
    LevelUpdate(Field(data, "enduranceStatus", "estimateFuelPercent", Null), icon)
  }
}
