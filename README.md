# NETA vehicle integration: trip-energy tracker, derived metrics and polling coordinator

This project is a Dafny model of the logic at the centre of a home-automation
integration for NETA cars. The integration polls the vendor's telematics API
for one vehicle's status and shows values derived from it as sensors. Two
components hold all its state and rules:

- **The sensors of `custom_components/neta_vehicle/sensor.py`:**
  - the pure unit conversions, such as remaining energy, charging and
    discharging power, speed and ranges;
  - the lookup-table classifiers: car, engine and charging status, and the
    battery and fuel level icons;
  - the stateful `TripEnergyTracker`. It keeps a 30-minute window of
    (time, remaining energy, odometer) samples, detects charging, accumulates
    per-day and lifetime energy deltas, and estimates recent consumption;
  - the two sensors that feed a tracker and publish its estimate.
- **The polling `UpdateCoordinator` of `custom_components/neta_vehicle_status/update_coordinator.py`.**
  It fetches with a bounded retry loop, stores the payload, notifies its
  listeners in order, and switches itself off with a persistent notification
  on any error.

Modules:

- `Snapshot` (`snapshot.dfy`). The raw payload, a map of sections to maps of
  JSON leaves (null, number, list). It also holds Python's `dict.get` with a
  default, `float()`, and the `if data:` refresh test.
- `Metrics` (`metrics.dfy`):
  - the scale constants;
  - `round(x, 2)`, taken as exact round-half-even on reals;
  - each stateless sensor, as a function from the payload to its state (and
    icon), or to `Raised` when the refresh throws.
- `TripTracker` (`trip_tracker.dfy`):
  - `Step`, the functional model of one `add_sample`, and `Inv`, the
    tracker's invariant;
  - the window lemmas;
  - `Consumption`, the estimate;
  - the class `TripEnergyTracker`. Its `AddSample` updates the fields in
    place, and is proved equal to `Step` and to preserve `Inv`.
- `EnergySensors` (`energy_sensors.dfy`). The classes
  `TripEnergyConsumptionKwh` and `EnergyConsumptionPerKm`. Each owns a tracker
  and feeds it from the payload.
- `Coordinator` (`coordinator.dfy`):
  - `CoordinatorState` and one specification function per operation: `Fetch`
    for the retry loop, plus `UpdateDataSpec`, `StartSpec`, `StopSpec`,
    `NotifySpec` and `HandleErrorSpec`;
  - the lemmas about them;
  - the class `UpdateCoordinator`. Its methods, including the retry loop
    and the loop over listeners, are each proved equal to their
    specification function.

Abstractions:

- Timestamps are integer seconds.
- The calendar day of a timestamp is a function `dayOf` fixed when a tracker
  is built.
- `datetime.now()` is the `now` parameter of a sensor refresh.
- The HTTP exchange is a function from the attempt number to its outcome:
  a transport failure, or a decoded response.
- Whether a listener raises is a function from listener to `bool`.
- The timer is a flag.
- Posted notifications, listener invocations, back-off sleeps and requests
  are recorded in logs.

The code behaves as follows in places one might not expect, and the model
follows it:

- A vendor code other than 20000 ends the fetch at once, with the
  token-expired notification. That attempt is not retried.
- Every error sets the running flag to false. Later timer ticks then do
  nothing: the error does not just degrade the coordinator.
- On failure the stored data is replaced by None, and the listeners are still
  notified.
- Listeners are not isolated. The first to raise ends the round, and its
  exception escapes `update_data` (and `start`, before the timer is armed).
- The per-day and lifetime totals add the signed delta
  `energy - last_energy`. This is negative while consuming and can be a small
  positive recovery of up to 0.2 kWh, so the totals are not monotone.
- Not every derived metric tolerates a missing input: the speed and range
  sensors convert with `float()` without a null check, so a missing field
  raises. A list where a number is expected also raises: in `float()`, in a
  comparison, or as a dictionary key.

## Model

| member | source | states |
|---|---|---|
| Snapshot.Field | custom_components/neta_vehicle/sensor.py:436-438 | a two-level `get` gives the default when the section is absent |
| Snapshot.Float | custom_components/neta_vehicle/sensor.py:450-451 | `float()` succeeds exactly on numbers and returns the number |
| Snapshot.FirstIfList | custom_components/neta_vehicle/sensor.py:444-445 | a non-empty list is replaced by its first element; anything else, including an empty list, is kept |
| Snapshot.Refreshes | custom_components/neta_vehicle/sensor.py:87 | the `if data:` test: a payload that is present and non-empty |
| Metrics.Round2 | custom_components/neta_vehicle/sensor.py:455 | `round(x, 2)`: a whole number of hundredths within 0.005 of x, ties to even |
| Metrics.RemainingEnergy | custom_components/neta_vehicle/sensor.py:436-460 | None exactly when an input is an explicit null; raises exactly when an input is a non-number; otherwise the rounded pp/10000·cap·(mV/1000)/1000 |
| Metrics.MissingEnergyFieldsReadAsZero | custom_components/neta_vehicle/sensor.py:436-438 | missing sections read as 0, so the sensor shows 0.0 kWh rather than unavailable |
| Metrics.VoltageListIsUnwrapped | custom_components/neta_vehicle/sensor.py:444-445 | a one-element voltage list is read as its element |
| Metrics.EmptyVoltageListRaises | custom_components/neta_vehicle/sensor.py:444-451 | an empty voltage list is not unwrapped, and `float()` of it raises |
| Metrics.ChargingPower | custom_components/neta_vehicle/sensor.py:473-489 | None exactly when voltage or current is null; with two numbers, Some of the rounded (V/1000)(I/1000)/1000 |
| Metrics.DischargingPower | custom_components/neta_vehicle/sensor.py:501-521 | a value only when speed is a positive number and both inputs are numbers; None on any null or when not moving; raises exactly on a non-number speed or, while moving, a non-number input |
| Metrics.Tenths | custom_components/neta_vehicle/sensor.py:400 | a raw field in tenths converts exactly when it is a number, rounded |
| Metrics.Speed | custom_components/neta_vehicle/sensor.py:421-422 | succeeds exactly when the speed field is a number (a missing one raises), giving the rounded km/h |
| Metrics.BatteryRange | custom_components/neta_vehicle/sensor.py:399-400 | succeeds exactly when the field is a number, giving the rounded km |
| Metrics.FuleRange | custom_components/neta_vehicle/sensor.py:410-411 | succeeds exactly when the field is a number, giving the rounded km |
| Metrics.Lookup | custom_components/neta_vehicle/sensor.py:185 | a dict `get` keyed by integers: raises exactly on a list, finds integral numbers in the table, gives the default otherwise |
| Metrics.CarStatus | custom_components/neta_vehicle/sensor.py:158-190 | charge codes 1 and 4 take priority (Charging / Connected); otherwise raises exactly on a list, unmapped codes give Unknown with the car icon, the state is a table value or Unknown, the icon is the plain car exactly for Charging and Unknown, and a known vehicle code gets its table label and that label's icon |
| Metrics.CarStatusByVehicleCode | custom_components/neta_vehicle/sensor.py:165-190 | without a priority charge code, vehicle codes 1 to 5 give Driving/mdi:car-side, Parked/mdi:parking, Charging/mdi:car, Starting/mdi:car-key and PowerOff/mdi:car-off |
| Metrics.VehicleIcon | custom_components/neta_vehicle/sensor.py:185-190 | the icon dictionary of the vehicle-status names, defaulting to the plain car |
| Metrics.EngineStatus | custom_components/neta_vehicle/sensor.py:340-349 | 1 is on, 0 is off, anything else unknown with the off icon; raises exactly on a list |
| Metrics.ChargingStatus | custom_components/neta_vehicle/sensor.py:363-372 | 1 is on, 3 is off, anything else unknown with the station icon; raises exactly on a list |
| Metrics.LevelIcon | custom_components/neta_vehicle/sensor.py:100-119 | one icon per ten-percent bucket, each bucket closed at its top; above 90 the full battery |
| Metrics.LevelUpdate | custom_components/neta_vehicle/sensor.py:96-119 | the raw value always becomes the state; a number picks the bucket icon; null keeps the previous icon; a list raises after the state is set |
| Metrics.BatteryLevel | custom_components/neta_vehicle/sensor.py:96-119 | the battery sensor applies the level refresh to vehicleBasic.soc (null when missing) |
| Metrics.FuelLevel | custom_components/neta_vehicle/sensor.py:128-151 | the fuel sensor applies the level refresh to enduranceStatus.estimateFuelPercent (null when missing) |
| TripTracker.Prune | custom_components/neta_vehicle/sensor.py:582-585 | the list filter keeps exactly the samples at or after the cutoff |
| TripTracker.Expired | custom_components/neta_vehicle/sensor.py:582-585 | the leading samples older than the cutoff |
| TripTracker.PruneKeepsAll | custom_components/neta_vehicle/sensor.py:585 | pruning keeps a window that is entirely recent |
| TripTracker.PruneIsSuffix | custom_components/neta_vehicle/sensor.py:585 | on a time-ordered window pruning drops a prefix, so relative order is kept |
| TripTracker.PruneAppend | custom_components/neta_vehicle/sensor.py:577-585 | the new sample survives pruning as the last element |
| TripTracker.TotalRemove | custom_components/neta_vehicle/sensor.py:537-538 | the sum of the per-day map can take any day out first |
| TripTracker.AddToDay | custom_components/neta_vehicle/sensor.py:570-575 | adding a delta to one day adds it to the sum of all days |
| TripTracker.Inv | custom_components/neta_vehicle/sensor.py:529-585 | the tracker invariant: samples in order 60 s apart, at most 30 min long, the last fields describe the newest sample (unset exactly when the window is empty), and the total is the sum of the days |
| TripTracker.Counted | custom_components/neta_vehicle/sensor.py:553-575 | the charge-detection and booking part of `add_sample` |
| TripTracker.Appended | custom_components/neta_vehicle/sensor.py:577-585 | the append, last-field update and 30-minute pruning part of `add_sample` |
| TripTracker.Step | custom_components/neta_vehicle/sensor.py:540-585 | one `add_sample` call: the gate, then `Counted`, then `Appended` |
| TripTracker.StepGate | custom_components/neta_vehicle/sensor.py:540-545 | a sample less than 60 s after the last one, or earlier, changes no state |
| TripTracker.StepCharging | custom_components/neta_vehicle/sensor.py:553-561 | a rise above 0.2 kWh sets the charging flag, leaves only the new sample, and books nothing |
| TripTracker.StepAccumulates | custom_components/neta_vehicle/sensor.py:562-575 | otherwise the same signed delta is added to the day of the sample and to the lifetime total |
| TripTracker.StepFirstSample | custom_components/neta_vehicle/sensor.py:553-577 | the first sample books nothing and becomes the whole window |
| TripTracker.FirstKept | custom_components/neta_vehicle/sensor.py:556-585 | the first old sample to survive lies within the window |
| TripTracker.StepKeepsSuffix | custom_components/neta_vehicle/sensor.py:556-585 | an accepted sample keeps a suffix of the old window (nothing after charging) and appends itself |
| TripTracker.StepWindow | custom_components/neta_vehicle/sensor.py:577-585 | after an accepted sample the last fields equal it, it closes the window, every retained sample is at most 30 min older, order is kept, and the window grew by at most one |
| TripTracker.GatePassedMeansLater | custom_components/neta_vehicle/sensor.py:540-545 | a timestamp that passes the gate is at least 60 s after every sample in the window |
| TripTracker.SpacedSuffixAppend | custom_components/neta_vehicle/sensor.py:577 | appending such a sample to a suffix keeps the window ordered with 60 s spacing |
| TripTracker.CountedKeepsTotal | custom_components/neta_vehicle/sensor.py:553-575 | booking a delta keeps the lifetime total equal to the sum of the days |
| TripTracker.StepPreservesInv | custom_components/neta_vehicle/sensor.py:540-585 | `add_sample` keeps the invariant: samples 60 s apart in order, at most 30 min long, the last fields describe the newest sample, and the total is the sum of the days |
| TripTracker.Consumption | custom_components/neta_vehicle/sensor.py:589-632 | an estimate needs 2 samples, a 2 to 60 min span, at least 0.2 km and 0.05 kWh, and 0.05 to 0.5 kWh/km; it is (first energy minus last, last distance minus first) |
| TripTracker.ConsumptionIffPlausible | custom_components/neta_vehicle/sensor.py:603-629 | the guard chain accepts exactly the plausible trips; the recovery and zero-distance guards reject nothing more |
| TripTracker.DivBounds | custom_components/neta_vehicle/sensor.py:626-627 | the efficiency bounds on e/d are bounds on e relative to d |
| TripTracker.SpanGuardUnreachable | custom_components/neta_vehicle/sensor.py:603 | in a tracker's window the span is at most 30 min, so the over-60-minute guard never fires |
| TripTracker.TripEnergyTracker.constructor | custom_components/neta_vehicle/sensor.py:529-538 | an empty tracker that satisfies the invariant |
| TripTracker.TripEnergyTracker.AddSample | custom_components/neta_vehicle/sensor.py:540-585 | the in-place update equals `Step` and keeps the invariant |
| TripTracker.TripEnergyTracker.CalculateConsumption | custom_components/neta_vehicle/sensor.py:587-632 | a read-only estimate; any result has distance at least 0.2 and positive energy |
| TripTracker.TripEnergyTracker.GetDailyConsumption | custom_components/neta_vehicle/sensor.py:634-636 | a day with no entry gives 0 |
| TripTracker.TripEnergyTracker.GetTotalConsumption | custom_components/neta_vehicle/sensor.py:638-640 | the lifetime total equals the sum of the per-day totals |
| TripTracker.ThirtySecondsApartIsOneSample | custom_components/neta_vehicle/sensor.py:543-545 | two observations 30 s apart give one sample |
| TripTracker.SteadyDriveGivesEstimate | custom_components/neta_vehicle/sensor.py:589-632 | ten minutes of driving (1 kWh over 5 km) gives that estimate |
| TripTracker.ChargingThresholdBoundary | custom_components/neta_vehicle/sensor.py:556-561 | a rise of 0.21 resets the window and 0.19 is booked; 0.2 is the strict threshold |
| EnergySensors.TripReading | custom_components/neta_vehicle/sensor.py:654-675 | no sample exactly when an input is null (the odometer defaults to null); raises exactly when one is a non-number; otherwise the energy formula and mileage/10 |
| EnergySensors.TripEnergyMatchesRemainingEnergy | custom_components/neta_vehicle/sensor.py:654-675 | whenever a trip sensor samples, the remaining-energy sensor shows the same energy, rounded |
| EnergySensors.NoOdometerNoSample | custom_components/neta_vehicle/sensor.py:657 | without the vehicleBasic section no sample is taken |
| EnergySensors.Round2AtLeast | custom_components/neta_vehicle/sensor.py:686 | rounding keeps a lower bound that is a whole number of hundredths |
| EnergySensors.Round2AtMost | custom_components/neta_vehicle/sensor.py:758 | rounding keeps an upper bound that is a whole number of hundredths |
| EnergySensors.KwhState | custom_components/neta_vehicle/sensor.py:683-691 | a state exactly when there is an estimate, within 0.005 of its energy |
| EnergySensors.PerKmState | custom_components/neta_vehicle/sensor.py:750-762 | a state only for an estimate with positive distance, within 0.005 of energy per km |
| EnergySensors.PublishedBounds | custom_components/neta_vehicle/sensor.py:757-762 | the zero-distance branch is unreachable, so the per-km sensor reports exactly when the kWh sensor does; published values are at least 0.05 kWh and 0.05 to 0.5 kWh/km |
| EnergySensors.TripEnergyConsumptionKwh.constructor | custom_components/neta_vehicle/sensor.py:644-647 | no state, and a fresh empty tracker of its own |
| EnergySensors.EnergyConsumptionPerKm.constructor | custom_components/neta_vehicle/sensor.py:717-720 | no state, and a fresh empty tracker of its own |
| EnergySensors.TripEnergyConsumptionKwh.UpdateState | custom_components/neta_vehicle/sensor.py:649-688 | numeric inputs make the tracker take a `Step` at `now` and set the state to the rounded estimate; a null clears the state without sampling; a non-number raises and changes nothing |
| EnergySensors.TripEnergyConsumptionKwh.AsyncUpdate | custom_components/neta_vehicle/sensor.py:83-88 | an absent or empty payload changes nothing; any other payload has the effect of `UpdateState` on it (raise, clear, or a `Step` and the rounded estimate) |
| EnergySensors.TripEnergyConsumptionKwh.GetDailyConsumption | custom_components/neta_vehicle/sensor.py:707-709 | a day with no entry gives 0 |
| EnergySensors.TripEnergyConsumptionKwh.GetTotalConsumption | custom_components/neta_vehicle/sensor.py:711-713 | the total attribute is the sum of the per-day totals |
| EnergySensors.EnergyConsumptionPerKm.UpdateState | custom_components/neta_vehicle/sensor.py:722-766 | as for the kWh sensor, with the state the rounded energy per km |
| EnergySensors.EnergyConsumptionPerKm.AsyncUpdate | custom_components/neta_vehicle/sensor.py:83-88 | an absent or empty payload changes nothing; any other payload has the effect of `UpdateState` on it (raise, clear, or a `Step` and the rounded energy per km) |
| Coordinator.Payload | custom_components/neta_vehicle_status/update_coordinator.py:69 | `get("data", {})`: an absent member gives the empty payload, a JSON null gives None |
| Coordinator.Fetch | custom_components/neta_vehicle_status/update_coordinator.py:42-91 | the retry loop from a given attempt number: one request per attempt, a sleep after each failure, return on 20000, the token notice on any other code, the network notice after five failures |
| Coordinator.NotifySpec | custom_components/neta_vehicle_status/update_coordinator.py:32-35 | a listener round: the listeners reached are logged, and whether one raised |
| Coordinator.UpdateDataSpec | custom_components/neta_vehicle_status/update_coordinator.py:120-126 | nothing when stopped; otherwise the fetch, the data replaced by its result, then the listener round |
| Coordinator.StartSpec | custom_components/neta_vehicle_status/update_coordinator.py:100-110 | switch on, refresh once, arm the timer unless the refresh raised |
| Coordinator.StopSpec | custom_components/neta_vehicle_status/update_coordinator.py:112-117 | switch off and disarm the timer |
| Coordinator.HandleErrorSpec | custom_components/neta_vehicle_status/update_coordinator.py:93-98 | switches off and appends exactly one notification, the message followed by a full stop, with the fixed title and id; nothing else changes |
| Coordinator.Pauses | custom_components/neta_vehicle_status/update_coordinator.py:88 | n sleeps of update_interval/5 seconds each |
| Coordinator.Called | custom_components/neta_vehicle_status/update_coordinator.py:32-35 | the listeners reached are a prefix of the registered ones |
| Coordinator.FirstAnswered | custom_components/neta_vehicle_status/update_coordinator.py:61-79 | the deciding attempt: every earlier attempt failed, and it is a decoded response unless all five failed |
| Coordinator.FetchOutcome | custom_components/neta_vehicle_status/update_coordinator.py:42-91 | the whole effect of a fetch: one request and one sleep per failed attempt; an accepted response returns its data; a rejection or five failures switch off with one notification and return None; nothing else changes |
| Coordinator.ExhaustionNotifiesOnce | custom_components/neta_vehicle_status/update_coordinator.py:61-91 | all transport failures: 5 requests, 5 sleeps, exactly one network notification, switched off, None |
| Coordinator.SuccessAfterFailures | custom_components/neta_vehicle_status/update_coordinator.py:61-88 | code 20000 on attempt k returns its data (an empty payload when absent) after k sleeps, with no notification |
| Coordinator.RejectionDoesNotRetry | custom_components/neta_vehicle_status/update_coordinator.py:70-78 | any other code: one request, no sleep, the token notification, switched off, None |
| Coordinator.CalledAll | custom_components/neta_vehicle_status/update_coordinator.py:34-35 | when none raises, every listener is called once in order and nothing escapes |
| Coordinator.CalledUpTo | custom_components/neta_vehicle_status/update_coordinator.py:34-35 | when listener i is the first to raise, exactly the listeners up to it are called |
| Coordinator.UpdateWhenStoppedIsNoOp | custom_components/neta_vehicle_status/update_coordinator.py:122-123 | not running: no fetch, data kept, no listener called |
| Coordinator.UpdateReplacesDataAndNotifiesAll | custom_components/neta_vehicle_status/update_coordinator.py:124-126 | running: the data becomes the fetch result and every listener is called once in order |
| Coordinator.FailedUpdateClearsDataAndNotifies | custom_components/neta_vehicle_status/update_coordinator.py:90-126 | a failed refresh (five failed attempts or a vendor rejection) stores None, switches off and still notifies every listener |
| Coordinator.ErrorSilencesLaterTicks | custom_components/neta_vehicle_status/update_coordinator.py:93-123 | after an error every later tick does nothing, whatever the network does |
| Coordinator.RaisingListenerAbortsRound | custom_components/neta_vehicle_status/update_coordinator.py:32-35 | a raising listener ends the round and its exception escapes |
| Coordinator.StartArmsTimerDespiteFailure | custom_components/neta_vehicle_status/update_coordinator.py:100-110 | a failed first fetch (five failed attempts or a vendor rejection) still arms the timer, leaving the coordinator off with no data |
| Coordinator.StopIdempotent | custom_components/neta_vehicle_status/update_coordinator.py:112-117 | stop switches off and disarms; twice is once |
| Coordinator.UpdateCoordinator.constructor | custom_components/neta_vehicle_status/update_coordinator.py:15-26 | no data, running, no listeners, no timer |
| Coordinator.UpdateCoordinator.AddListener | custom_components/neta_vehicle_status/update_coordinator.py:28-30 | appends exactly one entry, duplicates allowed, nothing else changes |
| Coordinator.UpdateCoordinator.NotifyListeners | custom_components/neta_vehicle_status/update_coordinator.py:32-35 | the loop equals `NotifySpec` |
| Coordinator.UpdateCoordinator.HandleError | custom_components/neta_vehicle_status/update_coordinator.py:93-98 | equals `HandleErrorSpec` |
| Coordinator.UpdateCoordinator.FetchVehicleStatus | custom_components/neta_vehicle_status/update_coordinator.py:42-91 | the retry loop equals `Fetch` from attempt 0 |
| Coordinator.UpdateCoordinator.UpdateData | custom_components/neta_vehicle_status/update_coordinator.py:120-126 | equals `UpdateDataSpec` |
| Coordinator.UpdateCoordinator.Start | custom_components/neta_vehicle_status/update_coordinator.py:100-110 | equals `StartSpec` |
| Coordinator.UpdateCoordinator.Stop | custom_components/neta_vehicle_status/update_coordinator.py:112-118 | equals `StopSpec` |

## Left out

- HTTP and request building are not modelled: sessions, URL, headers, the timestamp header, status checks and JSON decoding. They are I/O; each attempt's outcome is a parameter.
- A decoded response that is not a JSON object is not modelled separately; it raises inside the `try` and so counts as a transport failure.
- A missing "code" is a `None` code, which is not 20000, so it is a rejection.
- Scheduling is not modelled: asyncio, the real sleeping, and the timer callbacks. The timer is a flag and each sleep is logged with its duration.
- Each coordinator operation is taken as atomic. Interleavings at the awaits cannot be expressed: a timer tick that starts while a retry sequence sleeps, or a `stop` during a fetch whose result is then still stored and fanned out.
- Notification delivery is not modelled. Each notification is logged. A host failure while posting it is not modelled. At the rejection call site (update_coordinator.py line 77, inside the `try`) such a failure would be caught and the attempt retried. At the exhaustion call site (line 90, outside the `try`) it would escape `fetch_vehicle_status` and `update_data`, skipping both the data assignment and the listener round.
- Assigning the timer handle by a second `start` without a `stop` loses the old handle. The model has one flag and does not capture that leak.
- IEEE floating point is not modelled. Energies and distances are exact reals, and `round(x, 2)` rounds the exact value half to even.
- `float()` of strings and booleans is not modelled: payload leaves are null, numbers or lists.
- A payload section that is not a mapping (which would raise on `.get`) is not representable.
- `datetime` is not modelled: timestamps are whole seconds, `now` is a parameter, and the calendar day is an abstract function.
- Entity plumbing is not modelled: names, unique ids, `available`, device classes, units, the fixed icons of the conversion sensors, the field-copy attribute dictionaries, and `async_setup_entry`. These are host adapters.
- The `extra_state_attributes` of `TripEnergyConsumptionKwh` is modelled only through its two getters.
- `LocationSensor` is not modelled: it depends on the host's zone and state registry.
- `MileageSensor` is not modelled: it copies one field.
- `custom_components/neta_vehicle_status/sensor.py` is not part of this model. It holds only field copies, attribute dictionaries and the same zone-based tracker.
- The config-entry setup, services and sign-in call of the `__init__.py` files are not part of this model. Neither is the config flow and its schema, nor the token-capture proxy script.
- Logging is not modelled.
- `custom_components/neta_vehicle/sensor.py` imports a sibling `update_coordinator` that is not part of this model. The coordinator modelled is the one in `custom_components/neta_vehicle_status/update_coordinator.py`.
- Listeners are identifiers, and calling one is recorded in a log. A listener's own effect, such as a sensor refresh, is not composed with the coordinator here.
