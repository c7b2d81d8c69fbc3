# Race Oracle: a verified model of the playback server, the race data and the simulation core

Race Oracle replays pre-generated Formula 1 race scenarios to a browser.
This project models in Dafny the deterministic core of that system and
proves what each part promises:

- **Playback server** (`backend/src/main.py`). `PlaybackState` is a class
  whose fields the WebSocket message handler (SELECT_SCENARIO, PLAY, PAUSE,
  SEEK, SET_SPEED) and one tick of the broadcast loop update in place. The
  server also has the scenario-data endpoint's bounds check and the
  connection list of `ConnectionManager`. All of this is in the module
  `Playback`.
- **Race data** (`backend/src/race_data.py`, `backend/src/race_data_real.py`).
  The snapshot lookup (`get_race_snapshot`) picks, for each driver, the last
  sample before the first later one. The two telemetry generators produce
  synthetic laps and laps replayed on a real track. These are in the modules
  `RaceData` and `RaceDataReal`.
- **Track sectors** (`backend/src/fetch_real_data.py`,
  `analyze_track_sectors`). Points are classified against the mean speed,
  and runs longer than ten points are emitted at each type change. This is
  in the module `TrackSectors`.
- **Monte Carlo lap model** (`backend/src/monte_carlo_simulation.py`). It
  covers the configuration defaults, the lap-time terms, the per-scenario
  lap loop with its DNF and red-flag exits, and the aggregation of results.
  This is in the module `MonteCarlo`.
- **Physics and simulation controller** (`backend/src/physics.py`,
  `backend/src/simulation.py`).
  - `Tire` and `Vehicle` are classes whose wear, temperature, speed,
    distance, lap and track index are updated in place.
  - `Simulation` owns the fleet. It configures it, ticks it, changes the
    weather and chaos level, and stops or resets it.
  - These are in the modules `Physics` and `Simulation`.
- **Track view** (`src/components/TrackVisualization.tsx`). It covers the
  bounding box, the uniform-scale centred projection to the 1200×900
  viewBox, the nearest-point search that places a vehicle, and the SVG path
  of the track outline. This is in the module `TrackVisualization`.

Library and environment inputs are parameters:
- Random draws are a stream `rand: nat -> real`. It is read at a counter
  that each operation threads through in the order the source draws.
- `random.choice` is an index taken modulo the list length.
- `math.atan2` and `math.sin(p·π)` are function parameters.

Numbers are Dafny reals. Supporting modules: `Wrappers` (Option and
Result), `PyRandom` (the draw stream and `random.uniform`), `Stats` (sum,
mean, min, max), `RealArith` (absolute value and the signs of products) and
`Track` (track points).

## Model

| member | source | states |
|---|---|---|
| Playback.RemoveFirst | backend/src/main.py:34-35 | `list.remove` on the connection list. When the socket is present, exactly one copy leaves: the multiset loses one `ws` and the length drops by one. An absent socket leaves the list as it was. |
| Playback.RemoveFirstKeepsOrder | backend/src/main.py:34-35 | The removed copy is the first one. The result is the list with that single position cut out, so the other connections keep their order. |
| Playback.ConnectThenDisconnect | backend/src/main.py:30-35 | Connecting a socket and then disconnecting it restores the original multiset of connections. |
| Playback.ConnectionManager.constructor | backend/src/main.py:27-28 | The manager starts with no connections. |
| Playback.ConnectionManager.Connect | backend/src/main.py:30-32 | The socket is appended at the end of the connection list. |
| Playback.ConnectionManager.Disconnect | backend/src/main.py:34-35 | A connected socket is removed (first occurrence). A socket that is not in the list raises ValueError, and the list does not change. |
| Playback.GetScenarioData | backend/src/main.py:98-121 | A 404 "Scenario not found" error exactly when the id is negative or not below the number of scenarios. Otherwise the reply carries the scenario's id, counts, aggression factor, drivers and race data, plus the track file's contents. |
| Playback.MaxLastTimeStep | backend/src/main.py:137-140 | One step of the duration scan. A driver with telemetry raises the running maximum to its last sample time if that is larger. A driver without telemetry leaves the maximum as it is. |
| Playback.MaxLastTimeIsMaximum | backend/src/main.py:133-141 | The scenario duration is non-negative and at least every driver's last sample time. It is either 0.0 or attained by some driver's last sample. |
| Playback.Advance | backend/src/main.py:201-208 | One broadcast step of the clock. Playback continues exactly when `t + 0.05·speed` is still below the duration, and then the clock is at that value. Otherwise the clock is clamped to the duration and playback stops. The clock never exceeds the duration. |
| Playback.PlaybackReachesEnd | backend/src/main.py:201-208 | With a positive speed, enough ticks to cover the remaining time always end with the clock at the duration and playback stopped. |
| Playback.PlaybackState.constructor | backend/src/main.py:126-131 | Scenario 0, time 0.0, paused, speed 1.0, duration 0.0. This state is valid for any scenario list. |
| Playback.PlaybackState.GetMaxTime | backend/src/main.py:133-141 | The accumulator loop returns the maximum last sample time over the selected scenario's drivers, or 0.0 when no driver has telemetry. |
| Playback.PlaybackState.Handle | backend/src/main.py:156-187 | Per message type: <br>• SELECT_SCENARIO (default id 0) with an id in range selects it at time 0, paused, with its duration, and replies with the id and duration. An out-of-range id changes nothing and gets no reply. <br>• PLAY and PAUSE set `is_playing` and reply, leaving the other fields unchanged. <br>• SEEK stores the time unclamped (default 0.0) and echoes it. <br>• SET_SPEED stores the speed (default 1.0) and echoes it. <br>• A missing or unknown type changes nothing and gets no reply. |
| Playback.PlaybackState.Tick | backend/src/main.py:199-220 | While playing with scenarios present, the clock and the playing flag follow `Advance`. The frame is the selected scenario's snapshot at the new time, with the scenario id, playing flag, duration and speed. Otherwise nothing changes and no frame is sent. Scenario, speed and duration never change. |
| RaceData.FindProfile | backend/src/race_data.py:10-46 | The profile table lookup finds an entry exactly when a profile with that driver id exists, and returns that profile. |
| RaceData.FirstLater | backend/src/race_data.py:183-189 | The search stops at the first sample later than the query time. Every sample before it is at or before the query time. |
| RaceData.FirstLaterUnique | backend/src/race_data.py:183-189 | Any index with that property is the one the search returns. |
| RaceData.SelectedIsLatestAtOrBefore | backend/src/race_data.py:183-189 | On time-sorted telemetry, no sample is selected exactly when every sample is later than the query. Otherwise the selected sample is at or before the query time, and no later-indexed sample is also at or before it. |
| RaceData.SelectedIffStarted | backend/src/race_data.py:183-191 | A driver has a selected sample exactly when its telemetry is non-empty and its first sample is not after the query time. |
| RaceData.LastAtOrBefore | backend/src/race_data.py:183-189 | The reassign-then-break loop over one driver's telemetry returns exactly the selected sample: the one just before the first sample later than the query time, or none. |
| RaceData.GetRaceSnapshot | backend/src/race_data.py:170-206 | The snapshot echoes the requested time. Its vehicles are those of the drivers, in driver order, that have a selected sample, each built from that sample and the driver's profile. |
| RaceData.SnapshotStep | backend/src/race_data.py:180-204 | One iteration of the driver loop: the vehicle list grows by the current driver's vehicle exactly when that driver has a selected sample. |
| RaceData.SnapshotSize | backend/src/race_data.py:180-191 | A snapshot never has more vehicles than there are drivers. |
| RaceData.SnapshotSound | backend/src/race_data.py:191-204 | Every vehicle in a snapshot belongs to a listed driver that has a selected sample. Its speed, lap, track position, distance and tire values are copied from that sample, and its name, colour and aggression from the driver's profile. |
| RaceData.SnapshotComplete | backend/src/race_data.py:180-204 | Every listed driver with a selected sample appears in the snapshot. |
| RaceData.PyModRange | backend/src/race_data.py:119 | Python's float `%` with a positive track length puts the track position in `[0, track_length)`. |
| RaceData.PySliceEnd | backend/src/race_data.py:53 | The end of Python's slice `[:num_drivers]` (negative counts from the end) is within the list. |
| RaceData.ProfileIds | backend/src/race_data.py:10-46 | The profile keys are the profiles' driver ids, in table order. |
| RaceData.AdjustedBaseTimes | backend/src/race_data.py:71-75 | The base lap time gets 2% faster when aggression is above 0.9, 2% slower when it is below 0.8, and is unchanged otherwise. Every shipped profile's adjusted time is positive for a positive base. |
| RaceData.HalfSecondStepsSorted | backend/src/race_data.py:79-131 | Samples taken every half second from time 0 are sorted by time. This is the precondition the snapshot lookup relies on. |
| RaceData.SynthLaps | backend/src/race_data.py:82-131 | After `n` laps from draw `k0` the counter is at `k0 + n + m`, where `m` is the number of samples written: one draw per lap time and one per sample's tyre temperature. |
| RaceData.LapTailAppended | backend/src/race_data.py:115-131 | Appending the next sample of the current lap keeps the lap's tail well formed. The sample is half a second after the last, at the odometer's next distance, wrapped at the track length, with the lap number and wear. The earlier samples are kept. |
| RaceData.LapSamplesOf | backend/src/race_data.py:94-131 | The point loop of one lap writes exactly `int(2·lap_time)` samples and takes one temperature draw per sample. The samples are half a second apart, the distance is a running sum of the per-sample increments, each position is wrapped, and every sample carries the lap number and wear. |
| RaceData.LapTailComplete | backend/src/race_data.py:82-131 | A finished lap tail on top of the earlier laps' samples extends the whole-run facts. Each lap holds exactly its own block of samples, and no sample has a later lap number. |
| RaceData.SynthLap | backend/src/race_data.py:82-131 | One iteration of the lap loop writes exactly `int(2·lap_time)` samples of lap `lap`, for one lap-time draw. The distance and clock carry over to the next lap, and the earlier samples keep their facts. |
| RaceData.DriverTelemetry | backend/src/race_data.py:77-131 | One driver's telemetry from draw `k0`: lap `l` holds exactly the samples `SynthLaps(l-1)` up to `SynthLaps(l)`. Sample `i` is at time `0.5·i`. The distance starts at 0 and grows by `speed/3.6·0.5` per sample. The track position is the distance modulo the track length, and the wear is the lap's wear in percent. Laps run within `1..num_laps` in order. The counter ends at `SynthLaps(num_laps)`. |
| RaceData.ShippedDriverTelemetry | backend/src/race_data.py:67-133 | Profile `i`'s telemetry is the one-driver run above, with its aggression-adjusted base time. It continues the draw stream where profile `i-1` stopped. |
| RaceData.GenerateRaceTelemetry | backend/src/race_data.py:48-135 | The drivers are the first `num_drivers` profile keys in order, and the race data has exactly those keys. Driver `i`'s telemetry is the one-driver run of profile `i` with its adjusted base time, from where driver `i-1`'s draws stopped. The counter ends after the last driver. |
| RaceData.DriverStored | backend/src/race_data.py:65-133 | Storing the next driver's telemetry under a new id keeps the map holding exactly the drivers so far, each under its own id. |
| RaceData.ShippedRunsStored | backend/src/race_data.py:65-133 | When the map holds each driver's shipped run, the entry under driver `i`'s id is profile `i`'s run. |
| RaceData.GeneratedTelemetrySorted | backend/src/race_data.py:131-133 | Every generated driver's telemetry is sorted by time and starts at 0. |
| RaceDataReal.ShippedProfileReady | backend/src/race_data_real.py:71-89 | Every shipped profile has a base lap time, a consistency in `(0.5, 1]` and a tire management of at most 1 (the ranges that keep lap times positive), and a positive adjusted base lap time. |
| RaceDataReal.PointSpeed | backend/src/race_data_real.py:112-120 | A point's speed is its recorded speed, or 250 when it has none, scaled by `0.95 + 0.1·aggression` and `1 − 0.5·wear`, then by `uniform(0.95, 1.05)` when the consistency roll fails. Its property is proved by `PointSpeedWithin`. |
| RaceDataReal.PointSpeedWithin | backend/src/race_data_real.py:112-120 | A passed consistency roll leaves the scaled speed unchanged. A failed roll keeps a non-negative speed within 5% of it. |
| RaceDataReal.DrivePoint | backend/src/race_data_real.py:108-136 | One point takes two draws, or three when the consistency roll fails. The sample replays the point: its distance, the completed laps' length plus that distance, and its `x`, `y`. It is at the current time with the lap's wear in percent. Its speed is `PointSpeed` of the point, from the roll and the variation draw. Its tyre temperature is `80 + 0.1·speed + uniform(-5, 5)` from the last draw, so it lies within 5 of `80 + 0.1·speed`. |
| RaceDataReal.DriveLap | backend/src/race_data_real.py:105-138 | One lap appends exactly one sample per track point and keeps the earlier samples. Sample `i` replays track point `i mod n` on lap `i div n + 1`. The `j`-th sample of the lap is at `start + j·time_per_point` with the lap's wear. The clock ends at `start + n·time_per_point`. A positive step makes the lap's times strictly increasing within `[start, end)`. |
| RaceDataReal.EvenStepsIncrease | backend/src/race_data_real.py:106-138 | Samples spaced by equal positive steps are strictly increasing in time and lie in `[start, end)`. |
| RaceDataReal.LapClock | backend/src/race_data_real.py:94-138 | Lap `l` advances the clock by exactly its lap time: `n` steps of `lap_time / n`. |
| RaceDataReal.LapTimePositive | backend/src/race_data_real.py:96-101 | With a plausible profile, a positive base time and a draw in `[0,1)`, every lap time is positive. |
| RaceDataReal.LapWearNonnegative | backend/src/race_data_real.py:100-101 | With tyre management of at most 1, the wear term is never negative on lap 1 or later. |
| RaceDataReal.LapClosed | backend/src/race_data_real.py:94-138 | After lap `l` the clock and counter are those of `LapsBefore(l)`. Each new sample's time is the lap start plus its index times that lap's step. |
| RaceDataReal.LapTimed | backend/src/race_data_real.py:105-138 | Timing by lap becomes timing by global index: sample `i` is step `i mod n` of lap `i div n + 1`. |
| RaceDataReal.RealLap | backend/src/race_data_real.py:94-138 | One iteration of the lap loop: one lap-time draw, then the lap's samples. Clock and counter end as `LapsBefore(lap)`, and every new sample replays its point at its step's time. With unit draws and a plausible profile, the lap's times increase within `[start, end)`. |
| RaceDataReal.JoinIncreasing | backend/src/race_data_real.py:94-138 | Appending a lap whose times increase and start at or after the end of the earlier laps keeps the whole telemetry strictly increasing. |
| RaceDataReal.RealTrackTelemetry | backend/src/race_data_real.py:91-140 | One driver's telemetry has exactly `num_laps · len(points)` samples, each replaying its track point. Sample `i` is at the start of lap `i div n + 1` plus `(i mod n)` steps of that lap's `lap_time / n`, with that lap's wear. It starts at time 0, and the counter ends at `LapsBefore(num_laps)`. With draws in `[0,1)`, a plausible profile and a positive base time, the times are strictly increasing. |
| RaceDataReal.ShippedRealTelemetry | backend/src/race_data_real.py:81-140 | Profile `i`'s replay uses its aggression-adjusted base time. It continues the draw stream where profile `i-1` stopped. |
| RaceDataReal.ReplayDrivers | backend/src/race_data_real.py:79-140 | The driver loop: the keys are exactly the first `num_drivers` profile ids, and each driver's telemetry is its replay from where the previous driver's draws stopped. |
| RaceDataReal.ShippedReplaysStored | backend/src/race_data_real.py:79-140 | When the map holds each driver's replay, the entry under driver `i`'s id is profile `i`'s replay. |
| RaceDataReal.GenerateRaceWithRealTrack | backend/src/race_data_real.py:62-142 | A division by zero (the returned error, after the first lap-time draw, so the counter is at `k0 + 1`) exactly when the track has no points while at least one lap of at least one driver is generated. Otherwise the drivers are the first `num_drivers` profile keys, and driver `i`'s telemetry is its replay as above, from where driver `i-1` stopped. |
| TrackSectors.Classify | backend/src/fetch_real_data.py:154-160 | A point is a straight exactly when its speed is above 1.2× the mean, a corner exactly when it is below 0.7× the mean (and not a straight), and medium exactly when it lies between the two. |
| TrackSectors.Speeds | backend/src/fetch_real_data.py:144 | The speed list has one entry per point, equal to that point's speed. |
| TrackSectors.Types | backend/src/fetch_real_data.py:151-160 | One classification per point, made against the mean speed. |
| TrackSectors.RunEnd | backend/src/fetch_real_data.py:162-174 | The run starting at an index extends over equal types and ends at the first type change, or at the end of the track. |
| TrackSectors.Scan | backend/src/fetch_real_data.py:148-174 | After the loop has seen `i` points, the open run starts no later than `i`. |
| TrackSectors.ScanStep | backend/src/fetch_real_data.py:151-174 | One iteration keeps the open run's start at or before the next index. |
| TrackSectors.AnalyzeTrackSectors | backend/src/fetch_real_data.py:136-180 | The imperative loop returns exactly the sectors of the run decomposition `TrackSectorsOf`, whose properties `TrackSectorsSound` states. |
| TrackSectors.ScanCurrentRun | backend/src/fetch_real_data.py:149-174 | After the first point, the loop's open run is a maximal-so-far run of one type. Its speed list is exactly the speeds from its start to the current index. |
| TrackSectors.OpenRunStep | backend/src/fetch_real_data.py:162-174 | One iteration either extends the open run with a point of its type (appending its speed) or opens a new run at a point of another type; either way the open run stays a run of one type holding exactly its points' speeds. |
| TrackSectors.ScanFindsRuns | backend/src/fetch_real_data.py:151-174 | The sectors emitted so far, followed by the decomposition from the open run's start, equal the decomposition of the whole track. This is the loop's invariant. |
| TrackSectors.StepEmits | backend/src/fetch_real_data.py:162-172 | At a type change, the loop emits the closed run's sector (only when it holds more than ten points) and opens a new run at the current index. |
| TrackSectors.SectorsFromSound | backend/src/fetch_real_data.py:162-174 | Every emitted sector covers a maximal run of one type with more than ten points, from its start to the next run's first index. Its length is the distance difference and its mean is the mean of exactly the run's speeds. The sectors are in increasing, non-overlapping order. |
| TrackSectors.TrackSectorsSound | backend/src/fetch_real_data.py:136-180 | For the whole track: each sector is a closed run of one type with more than ten points, its average speed is the mean of exactly its speeds, its length is the distance between its end and start points, and the final run is never emitted. Sectors are ordered and do not overlap. |
| TrackSectors.RunAverage | backend/src/fetch_real_data.py:155-168 | A sector's average speed falls in its type's band: above 1.2× the track mean for a straight, below 0.7× for a corner, and between the two for medium. |
| MonteCarlo.NewRaceConfig | backend/src/monte_carlo_simulation.py:5-23 | Every absent keyword takes its default. `DefaultConfiguration` proves what the defaults give. |
| MonteCarlo.BaseLapTime | backend/src/monte_carlo_simulation.py:25-27 | 86 s scaled by the circuit length over the 5.89 km reference. `DefaultConfiguration` proves 86 s for the default circuit, and `DrivenAboveFloor` uses it as the floor's base. |
| MonteCarlo.WeatherPenalty | backend/src/monte_carlo_simulation.py:29-37 | A draw is consumed only for humidity above 70 and for wind above 20. The penalty lies in `[0, 0.85]`, is at least 0.13 above 35°C, and is 0 in mild conditions. |
| MonteCarlo.CompoundRate | backend/src/monte_carlo_simulation.py:39-42 | The per-lap degradation rate of any compound, including the 0.08 fallback, lies in `[0.05, 0.12]`. |
| MonteCarlo.EngineModeFactor | backend/src/monte_carlo_simulation.py:47-49 | The engine mode effect, including the 0.0 fallback, lies in `[-0.35, 0.16]`. |
| MonteCarlo.TireDegradation | backend/src/monte_carlo_simulation.py:39-42 | The lap number times the compound's rate; the configured degradation rate is unused. `TireDegradationIncreasing` and `PenaltiesNonneg` state its properties. |
| MonteCarlo.FuelPenalty | backend/src/monte_carlo_simulation.py:44-45 | 0.016 s per kg of the fuel still on board, burned linearly over the race. `FuelPenaltyProfile` and `PenaltiesNonneg` state its properties. |
| MonteCarlo.DriverErrorProb | backend/src/monte_carlo_simulation.py:51-52 | The error probability is the skill/aggression formula floored at 0.01: never below either, and equal to one of them. |
| MonteCarlo.ReliabilityFailure | backend/src/monte_carlo_simulation.py:54-55 | One draw above the reliability score is a failure. `PerfectReliabilityNeverFails` states its property. |
| MonteCarlo.SessionEvent | backend/src/monte_carlo_simulation.py:57-65 | The scheduled safety-car lap always brings a safety car and skips its draw (two draws). Other laps use three draws. |
| MonteCarlo.DrivenTime | backend/src/monte_carlo_simulation.py:73-80 | The lap time before errors and events: the override lap time `circuit_length·3600/override` with no draw, or the base time plus the weather, tyre, fuel and engine terms after the weather draws. `DrivenAboveFloor` and `LapProperties` state its properties. |
| MonteCarlo.Lap | backend/src/monte_carlo_simulation.py:73-95 | One lap from draw `k`: the driven time, a driver error with its probability, the reliability roll, then the session events, with 8 s for a safety car and 4 s for a VSC. A failure ends as `Failed`, a red flag as `Stopped`. `RunLap` is proved equal to it, and `LapProperties` and `CompletedAboveFloor` state its properties. |
| MonteCarlo.Scenario | backend/src/monte_carlo_simulation.py:70-96 | One scenario from draw `k0`: laps from 1 until the last, a DNF or a red flag. `RunScenario` is proved equal to it, and `ScenarioFromProperties` states its shapes and lap bounds. |
| MonteCarlo.PenaltiesNonneg | backend/src/monte_carlo_simulation.py:39-45 | Within the race and with a non-negative fuel load, the tyre and fuel penalties are non-negative. |
| MonteCarlo.DrivenAboveFloor | backend/src/monte_carlo_simulation.py:73-80 | With unit draws (and, without an override, a non-negative fuel load), the lap time before errors and events is at least the lap floor. |
| MonteCarlo.LapProperties | backend/src/monte_carlo_simulation.py:73-95 | A lap takes the weather draws (none with an override speed), then two to six draws. With unit draws, a completed lap is its driven time plus a surcharge: 0 or 0.3–2.5 s of driver error, plus 0, 4, 8 or 12 s of safety car and VSC. With an override speed the driven time is exactly the override lap time, with no weather, tyre, fuel or engine term. |
| MonteCarlo.CompletedAboveFloor | backend/src/monte_carlo_simulation.py:73-95 | Under the same conditions, a completed lap is never below the lap floor. |
| MonteCarlo.RunLap | backend/src/monte_carlo_simulation.py:73-95 | The body of the lap loop ends the lap and moves the counter exactly as the lap function `Lap` does. |
| MonteCarlo.ScenarioFromProperties | backend/src/monte_carlo_simulation.py:72-95 | The rest of a scenario ends in one of the three shapes. Its laps stay above the floor, and with an override speed each is the override lap time plus a surcharge. |
| MonteCarlo.LapsExtended | backend/src/monte_carlo_simulation.py:84-95 | Appending a DNF's empty entry, or a completed lap at or above the floor, keeps the recorded laps within the model. With an override speed, the completed lap must be the override lap time plus a surcharge. |
| MonteCarlo.RunScenario | backend/src/monte_carlo_simulation.py:70-96 | The loop yields exactly the scenario `Scenario` and its final counter. A scenario ends in one of three shapes: finished with every lap recorded; a DNF on lap `l` with `l` entries, the last one empty; or a red flag on lap `l` with the `l-1` completed laps. With unit draws every recorded lap is at least the lap floor. With an override speed each is exactly the override lap time plus a surcharge. |
| MonteCarlo.RunScenarios | backend/src/monte_carlo_simulation.py:68-97 | The results are exactly `Scenarios`: result `i` is the scenario that starts where scenario `i-1` stopped in the draw stream, with its shape and lap bounds. The counter ends after the last scenario. |
| MonteCarlo.ScenarioStep | backend/src/monte_carlo_simulation.py:69-96 | One iteration of the scenario loop extends the results by the next scenario of the chain, and leaves the counter where the following scenario starts. |
| MonteCarlo.ScenariosEach | backend/src/monte_carlo_simulation.py:69-96 | Every scenario of the chain has one of the three shapes and is the scenario run from where the previous one stopped. |
| MonteCarlo.RunRaceScenarios | backend/src/monte_carlo_simulation.py:67-97 | A division by zero exactly when the override speed is 0 and at least one lap of one scenario runs. Otherwise there are exactly `n_scenarios` results, each of a valid shape. Result `i` is the scenario that starts where the previous one stopped, within the lap bounds above. With a zero override and no lap, every result is finished with no laps and no draw is taken. |
| MonteCarlo.AnalyzeResults | backend/src/monte_carlo_simulation.py:99-110 | A division by zero exactly when there are no results. Otherwise the win probability is finished/total, and the average and fastest lap are absent exactly when no lap was recorded. |
| MonteCarlo.FinishedCountBound | backend/src/monte_carlo_simulation.py:100 | The finished count is at most the number of results, and equals it exactly when every scenario finished. |
| MonteCarlo.WinProbabilityBounds | backend/src/monte_carlo_simulation.py:100-102 | The win probability lies in `[0,1]` and is 1 exactly when every scenario finished. |
| MonteCarlo.FastestLapProperties | backend/src/monte_carlo_simulation.py:103-105 | The fastest lap is a recorded lap, no slower than any recorded lap and no slower than the average. |
| MonteCarlo.ValidLapsAboveFloor | backend/src/monte_carlo_simulation.py:103 | If every scenario's laps are above a floor, so is every lap in the flattened list. |
| MonteCarlo.FastestLapAboveFloor | backend/src/monte_carlo_simulation.py:73-105 | The fastest lap of simulated results is never below the configuration's lap floor. |
| MonteCarlo.DefaultConfiguration | backend/src/monte_carlo_simulation.py:5-52 | The defaults give 52 laps, an 86 s base lap, a 1% error probability (at its floor), a 0.35 s Push gain and a 0.10 s/lap soft-tyre rate. |
| MonteCarlo.TireDegradationIncreasing | backend/src/monte_carlo_simulation.py:39-42 | Tyre degradation strictly grows with the lap number. |
| MonteCarlo.FuelPenaltyProfile | backend/src/monte_carlo_simulation.py:44-45 | The fuel penalty is `fuel_load·0.016` at lap 0, is zero on the final lap, and strictly decreases lap by lap. |
| MonteCarlo.PerfectReliabilityNeverFails | backend/src/monte_carlo_simulation.py:54-55 | A reliability score of at least 1 never produces a mechanical failure. |
| Physics.Clamp | backend/src/physics.py:124 | The steering clamp lies in `[-1, 1]` and is the identity inside that range. |
| Physics.GripOf | backend/src/physics.py:28-37 | A new tire at its optimal temperature has exactly the base grip. |
| Physics.GripBounds | backend/src/physics.py:28-37 | The grip formula is positive for a positive base, wear at most 1 and a temperature factor in `[0.7, 1]`. With wear in `[0,1]` it lies between 42% and 100% of the base. |
| Physics.SpecFor | backend/src/physics.py:13-21 | The compound lookup always yields one of the table's specs, with positive grip and a non-negative degradation rate. |
| Physics.CompoundFallback | backend/src/physics.py:13-21 | An unknown compound gets the Medium specs. Soft and Hard keep their own. |
| Physics.Tire.constructor | backend/src/physics.py:19-26 | A new tire keeps the given compound name, takes that compound's (or Medium's) specs, and starts at 70.0 °C with zero wear. |
| Physics.Tire.TempFactor | backend/src/physics.py:33-35 | The temperature factor lies in `[0.7, 1]`. It is 1 at the optimal temperature and falls by 1/50 per degree within 15 °C of it. |
| Physics.Tire.GetCurrentGrip | backend/src/physics.py:28-37 | A valid tire's grip is positive and between 42% and 100% of its base grip. A new tire at its optimal temperature has exactly the base grip. |
| Physics.Tire.UpdateWear | backend/src/physics.py:39-43 | Wear becomes the old wear plus the distance and sliding terms, capped at 1.0. It never exceeds 1.0 and never decreases with non-negative inputs. Temperature and grip are untouched. |
| Physics.Tire.UpdateTemperature | backend/src/physics.py:45-49 | The temperature moves 5% of the way toward the target. It ends between the old temperature and the target, with the gap shrunk to 95%, and wear and grip are untouched. |
| Physics.NewDriver | backend/src/physics.py:55-59 | An empty profile gives "Unknown", 0.8, 0.7, 0.9. A given name or consistency is kept. |
| Physics.Pedals | backend/src/physics.py:73-82 | Throttle and brake are never both applied. Braking happens only below −5 m/s of speed difference, the ±5 band gives 0.3 throttle, throttle is in `[0,1]`, and brake is in `[0,1]` for any plausible aggression. |
| Physics.NormalizeHeading | backend/src/physics.py:117-122 | The two `while` loops bring the heading error into `[−π, π]` by whole turns, and leave an error already in range unchanged. |
| Physics.CalculateSteering | backend/src/physics.py:99-125 | Steering lies in `[-1, 1]` and is 0 for a track of fewer than two points. For an in-range heading error it is the clamp of twice that error toward the look-ahead point five indices on. |
| Physics.GetCommands | backend/src/physics.py:61-97 | It consumes one draw, or three when the consistency check fails. Throttle and brake are never both applied and follow the speed-difference regimes. For plausible drivers both stay in `[0, 1.1]`, because the consistency variation can scale a full pedal by up to 1.1. Steering is in `[-1,1]`. |
| Physics.PedalBounded | backend/src/physics.py:85-92 | A pedal in `[0,1]`, scaled by the tyre-management smoothing and, when varied, by a factor in `[0.9, 1.1)`, stays in `[0, 1.1]`. |
| Physics.ThrottleCanExceedOne | backend/src/physics.py:84-92 | A full throttle with full tire management, scaled by a variation draw of 0.99, is 1.098: the code goes past the 1.0 its docstring gives. |
| Physics.CornerFactor | backend/src/physics.py:262-269 | The corner factor lies in `[0.3, 1]` and is 1 for an angle change of at most 0.2 rad. |
| Physics.CornerFactorMonotone | backend/src/physics.py:262-269 | A sharper angle change never gives a higher corner factor. |
| Physics.CornerFactorRegimes | backend/src/physics.py:262-269 | Above 0.5 rad the factor is always its 0.3 floor. Between 0.2 and 0.5 rad it is `1 − 0.8·angle`, in `[0.6, 0.84)`. |
| Physics.GetTargetSpeed | backend/src/physics.py:227-273 | The target speed is 80 with no track. Otherwise it lies in `[27, 90]`, and it is 90 when the 20-point look-ahead runs off the end of the track. |
| Physics.Wrap | backend/src/physics.py:207-210 | The lap counter increases by exactly one exactly when the distance reaches the track length, and never by more. |
| Physics.WrapKeepsRaceDistance | backend/src/physics.py:200-210 | Wrapping keeps the race distance `(lap−1)·length + distance on track` unchanged. A move shorter than two laps lands in `[0, length)`. |
| Physics.FirstReaching | backend/src/physics.py:214-216 | The segment search returns the first index whose cumulative distance reaches the position, or the track length when there is none. |
| Physics.WrappedPositionIsLocated | backend/src/physics.py:204-216 | After a lap wrap of a move under two laps, the segment search always finds a track point. |
| Physics.SegmentBracketsPosition | backend/src/physics.py:214-216 | On a track sorted by distance, the found point and its predecessor bracket the position. |
| Physics.GripBudget | backend/src/physics.py:175-178 | Positive mechanical grip gives a positive grip budget. |
| Physics.SlidingFactor | backend/src/physics.py:184-188 | Requesting more than 70% of the budget gives a positive sliding factor. |
| Physics.DistanceKm | backend/src/physics.py:191 | A non-negative speed over a non-negative step covers a non-negative distance. |
| Physics.Vehicle.constructor | backend/src/physics.py:131-152 | A new vehicle is at rest at the origin with heading 0, at the given start index, distance 0, lap 1 and status "Racing". |
| Physics.Vehicle.Drive | backend/src/physics.py:159-198 | The force part of `update` keeps the speed non-negative and the tire valid, never reduces wear over a non-negative step, consumes the driver's draws, and leaves position, index, distance, lap and status alone. |
| Physics.Vehicle.Advance | backend/src/physics.py:200-225 | The distance and lap follow `Wrap` of the distance travelled. The track index and position move to the first point reaching the new distance, or stay put when there is none. Speed, tire and status are untouched. |
| Physics.Vehicle.Update | backend/src/physics.py:154-225 | A vehicle that is not racing, or has no track, is left exactly as it was. Otherwise it is driven, then advanced: it gains at most one lap, keeps its track index on the track, and its tire wear never decreases over a non-negative step. |
| Physics.Vehicle.GetTelemetry | backend/src/physics.py:275-289 | The speed in km/h is 3.6× the speed in m/s. Tire wear is the wear in percent, at most 100 for a valid tire. Lap, distance and position are the vehicle's own. |
| Simulation.NatToString | backend/src/simulation.py:40 | The decimal rendering of a driver number is non-empty, all digits, and has no leading zero. |
| Simulation.AgentDriver | backend/src/simulation.py:39-45 | An agent without a profile gets "Driver i+1" with aggression 0.8, tire management 0.7 and consistency 0.9. |
| Simulation.StartIndex | backend/src/simulation.py:56-63 | The start index is the first point whose distance reaches `i·100`, or 0 when there is none or no track. It is within the track when one exists. |
| Simulation.WeatherGrip | backend/src/simulation.py:48-53 | A tire's base grip stays positive, and is the compound's own grip unless the weather is "Wet". |
| Simulation.ConfigureVehicle | backend/src/simulation.py:37-77 | Vehicle `i` is new, with a new tire of its compound (0.7× grip in the wet), distance `i·100`, the start index and that point's position, and speed `55 + 5·draw`. |
| Simulation.AppendConfigured | backend/src/simulation.py:37-77 | One loop iteration appends the next configured vehicle and keeps the fleet's distinct, valid vehicles. |
| Simulation.ConfigureFleet | backend/src/simulation.py:31-77 | One new vehicle per agent, in order, each configured as above, forming a fleet of distinct vehicles and tires. |
| Simulation.RenewTire | backend/src/simulation.py:118-122 | One vehicle gets a new tire of its old compound (0.7× grip in the wet). The other vehicles keep theirs. |
| Simulation.RenewTires | backend/src/simulation.py:118-122 | Every vehicle gets a new tire of its old compound. |
| Simulation.Ticked | backend/src/physics.py:154-225 | What one `Vehicle.update` promises. A vehicle not racing, or with no track, is unchanged. Otherwise it keeps its tyre, grip and status, its speed is non-negative, distance and lap follow `Wrap`, index and position follow `FirstReaching`, and wear never falls. The draws are `TickDraws`. `TickVehicle` meets it, and `TickedLapBound` draws the lap bound from it. |
| Simulation.TickedLapBound | backend/src/physics.py:154-225 | A tick never loses a lap and gains at most one. It keeps the vehicle's status and tire. |
| Simulation.TickVehicle | backend/src/simulation.py:88-89 | Vehicle `i` steps as `Vehicle.update` promises. A vehicle not racing, or with no track, is unchanged. Otherwise it keeps its tire, grip and status. Its speed is non-negative, and it moves by its new speed times `dt`, with the lap wrapped. It stands on the first point reaching its new distance, and over a non-negative step its wear does not decrease. It takes one draw, or three. Every other vehicle's state is unchanged. |
| Simulation.FleetTicked | backend/src/simulation.py:88-89 | Every vehicle of the fleet is `Ticked` in order, each starting its draws where the previous one stopped. `TickFleet` meets it, and `UpdateLapBound` uses it. |
| Simulation.TickFleet | backend/src/simulation.py:88-89 | Every vehicle steps in order as above, taking its draws where the previous vehicle stopped, and every vehicle keeps its tire. |
| Simulation.EventEffect | backend/src/simulation.py:102-110 | The victim's event: 0 retires it ("DNF - Mechanical"), 1 cuts its speed to 30%, 2 sets its wear to 0.95. Only that field changes. |
| Simulation.Struck | backend/src/simulation.py:97-110 | A chaos event changes no vehicle but the victim, and an empty fleet not at all. |
| Simulation.UpdateLapBound | backend/src/simulation.py:87-95 | Over one `update`, with a chaos event or without, every vehicle keeps its tire and gains at most one lap. A vehicle that was not racing changes only if the event strikes it. |
| Simulation.Simulation.constructor | backend/src/simulation.py:13-21 | No vehicles, no track, name "", "Dry", chaos 0, stopped, time 0, and a 0.05 s step. |
| Simulation.Simulation.PlaceFleet | backend/src/simulation.py:31-77 | The vehicle loop of `configure` replaces the vehicle list with one new configured vehicle per agent, built against the current track and weather, one draw each. The fleet is well formed. |
| Simulation.Simulation.Configure | backend/src/simulation.py:23-80 | Track "Monza", no track data, "Dry" and chaos 0 when absent. One new configured vehicle per agent, one draw each. Running, at time 0. |
| Simulation.Simulation.TriggerRandomEvent | backend/src/simulation.py:97-110 | Only the chosen victim changes: a mechanical DNF, a spin to 30% speed, or a puncture to 0.95 wear. With no vehicles nothing happens. |
| Simulation.Simulation.Update | backend/src/simulation.py:82-95 | A stopped simulation changes nothing and draws nothing. A running one ticks every vehicle in order, then takes one draw. It applies the chaos event exactly when that draw is below `chaos_level/1000`, and advances the clock by exactly `dt`. The fleet, track, weather and chaos level are kept. |
| Simulation.Simulation.Step | backend/src/simulation.py:87-95 | The running branch of `update`: every vehicle ticks, the chaos draw decides the event, and the clock advances by exactly `dt`. |
| Simulation.Simulation.TickAndStrike | backend/src/simulation.py:87-93 | The vehicle part of a running `update`: the fleet ticks, then one draw below `chaos_level/1000` strikes the victim. |
| Simulation.Simulation.SetWeather | backend/src/simulation.py:112-122 | The weather is stored and every vehicle gets a new tire of its compound, with wear and temperature reset and 0.7× grip in the wet. Nothing else changes. |
| Simulation.Simulation.SetChaos | backend/src/simulation.py:124-126 | The chaos level is clamped to `[0, 1]`, and is the given level inside that range. Nothing else changes. |
| Simulation.Simulation.Stop | backend/src/simulation.py:128-130 | Stopping only clears the running flag. |
| Simulation.Simulation.Reset | backend/src/simulation.py:132-136 | The vehicles are emptied and the simulation is stopped at time 0. Track, weather and chaos are kept. |
| Simulation.Simulation.GetStateSnapshot | backend/src/simulation.py:138-146 | The time, track, weather and chaos level, and exactly one telemetry entry per vehicle, in vehicle order. |
| TrackVisualization.NormalizeCoordinates | src/components/TrackVisualization.tsx:51-63 | With no track the bounds are `{0,1,0,1}`. Otherwise they are the minimum and maximum of the points' `x` and `y`: every point lies inside, and each bound is attained by some point. |
| TrackVisualization.ScaleFits | src/components/TrackVisualization.tsx:67-71 | The common scale is positive, and the scaled track fits the padded viewport on both axes. |
| TrackVisualization.AxisMonotone | src/components/TrackVisualization.tsx:79-80 | The projection along one axis is non-decreasing. |
| TrackVisualization.AxisWithin | src/components/TrackVisualization.tsx:74-80 | A coordinate inside the bounds projects inside `[60, size − 60]`. |
| TrackVisualization.AxisLinear | src/components/TrackVisualization.tsx:79-80 | Distances along an axis are multiplied by the scale. |
| TrackVisualization.AxisCentred | src/components/TrackVisualization.tsx:74-80 | The low bound and the high bound project to mirror positions. When the axis fills the viewport, the low bound lands on the padding. |
| TrackVisualization.FlatAxisCentred | src/components/TrackVisualization.tsx:65-83 | When all points share one `x` (or one `y`), that axis's scale is `Infinity` and `Math.min` takes the other. The flat coordinate is then drawn at half the viewport width (or height). |
| TrackVisualization.ToScreenCoords | src/components/TrackVisualization.tsx:65-83 | The view's projection of a point with the bounds of the loaded track: scale by the smaller axis ratio inside 60 px of padding and centre the track. `ProjectionWithinViewport`, `ProjectionMonotone`, `ProjectionUniformScale`, `ProjectionCentred` and `FlatAxisCentred` state its properties. |
| TrackVisualization.ProjectionWithinViewport | src/components/TrackVisualization.tsx:65-83 | Every point in the bounding box projects inside `[60, width−60] × [60, height−60]`. |
| TrackVisualization.ProjectionMonotone | src/components/TrackVisualization.tsx:79-80 | Projection preserves order in `x` and in `y`. |
| TrackVisualization.ProjectionUniformScale | src/components/TrackVisualization.tsx:69-80 | One positive factor scales both axes, so the aspect ratio is preserved. |
| TrackVisualization.ProjectionCentred | src/components/TrackVisualization.tsx:73-80 | The projected box has equal margins on opposite sides and touches the padding on at least one axis. |
| TrackVisualization.ClosestIsUnique | src/components/TrackVisualization.tsx:93-102 | The closest-point rule (minimal gap, earliest on ties) picks exactly one index. |
| TrackVisualization.ClosestPoint | src/components/TrackVisualization.tsx:93-102 | The search returns a point whose gap to the position is minimal. No earlier point has an equal gap, because replacement happens only on strict `<`. |
| TrackVisualization.GetVehicleScreenPosition | src/components/TrackVisualization.tsx:89-105 | `(0,0)` with no track or no points. Otherwise the projection of the closest track point. |
| TrackVisualization.VehicleMarkerInsideViewport | src/components/TrackVisualization.tsx:89-105 | A vehicle drawn on a loaded track lies inside the padded 1200×900 viewBox. |
| TrackVisualization.TrackPath | src/components/TrackVisualization.tsx:231-239 | The rendered commands joined by spaces, followed by " Z". `TrackPathLetters` states its letter counts. |
| TrackVisualization.RenderCount | src/components/TrackVisualization.tsx:235-238 | A rendered command has one `M` for a move and one `L` for a line, and no `Z`. |
| TrackVisualization.JoinCount | src/components/TrackVisualization.tsx:234-239 | Joining the rendered commands with spaces counts each letter once per command carrying it. |
| TrackVisualization.LetterCountOfPath | src/components/TrackVisualization.tsx:235-238 | A path whose only move is its first command has one `M`, `n−1` `L`s and no `Z`. |
| TrackVisualization.PathCommands | src/components/TrackVisualization.tsx:233-237 | One command per track point at its projection on the 1200×900 view: `M` for the first and `L` for the rest. `PathCommandsShape` and `LetterCountOfPath` state its shape. |
| TrackVisualization.PathCommandsShape | src/components/TrackVisualization.tsx:233-239 | One command per track point, at the projected point: `M` for the first and `L` for every other. |
| TrackVisualization.TrackPathLetters | src/components/TrackVisualization.tsx:231-245 | The path string has exactly one `M`, one `L` per point after the first, and one `Z`, which ends it as ` Z`. |

## Left out

- WebSocket, FastAPI and asyncio plumbing:
  - `receive_json` and `send_json` become the `Message` and `Reply` values.
  - `broadcast` and the endless `broadcast_loop` are out: `Tick` is one iteration, and its frame is what would be broadcast.
  - Also out: `asyncio.sleep`, CORS, the startup hook, and the `/`, `/data/tracks`, `/data/drivers` and `/data/scenarios` endpoints.
  - Connections are opaque handles (`nat`).
  - The exceptions that the handler and broadcast loop catch and print are excluded by the well-formedness preconditions: a scenario lists only known drivers, each with telemetry.
- File and network I/O:
  - Track files are read in `get_scenario_data`, `load_real_track_data` and the front end's `fetch`. The track contents are parameters, and loading is not modelled.
  - FastF1 fetching and JSON writing in `fetch_real_data.py` are not part of this model.
- `RACE_SCENARIOS`, `generate_multiple_scenarios` (`race_data.py:137-168`) and `generate_multiple_scenarios_real` (`race_data_real.py:145-174`) are not modelled. Their content is `random.randint` calls around the modelled generators. The scenario list is a parameter of the playback operations.
- Randomness:
  - Draws are read from the stream `rand` in the source's order. Their distribution is not modelled, except where a contract assumes draws in `[0, 1)` (`UnitDraws`).
  - `random.choice` results are index parameters.
- Trigonometry and library numerics:
  - `math.atan2` and `math.sin` are function parameters with no assumed properties.
  - `np.mean` and `np.min` are the `Stats` functions.
  - `round(…, 1)` on telemetry values is not modelled: values are kept unrounded.
  - Floating point is modelled as exact reals.
- Physics.Vehicle.Drive: the engine, brake, drag, downforce, lateral force and heading dynamics are computed as in the source. Its contract states only speed non-negativity, wear monotonicity and the frame, not the force values.
- Physics.Tire.GetCurrentGrip: the contract bounds grip between 42% and 100% of the base rather than restating the product.
- TrackVisualization.ToScreenCoords, TrackVisualization.GetVehicleScreenPosition, TrackVisualization.PathCommands, TrackVisualization.TrackPath: a track of one point, or of points that all coincide, has a bounding box flat on both axes. JavaScript then scales by `Infinity` and computes `0 · Infinity`, so every coordinate is `NaN`. IEEE special values are not modelled, so these members require `Scalable` bounds, which excludes exactly that case (and a flat axis with no room for the padding). A track flat on one axis only is modelled: `Math.min` discards that axis's infinite scale.
- Physics.Vehicle.GetTelemetry: tire wear and temperature are reported unrounded.
- MonteCarlo.RunScenario: the contract ties the result to `Scenario` and bounds each lap by the floor, and with an override speed by the exact lap time plus a surcharge. Without an override, the weather, tyre, fuel and engine terms are stated only through the function `DrivenTime`, not as separate per-lap bounds.
- RaceDataReal.DriveLap: the speed and tire temperature values are computed as in the source, including the default base speed of 250 for a point without `speed`. The contract does not state them, but it does state the time, wear, position and distance of every sample.
- RaceData.DriverTelemetry: the speed profile values are computed as in the source but not stated in the contract.
- `get_race_snapshot` and `DRIVER_PROFILES` in `race_data_real.py:10-47, 177-213` repeat those of `race_data.py` and are modelled once, by `RaceData.GetRaceSnapshot`.
- `aggression_factor` in `generate_race_telemetry` and `tire_degradation_rate` in `RaceConfig` are accepted and unused in the source, and likewise in the model.
- TrackSectors.AnalyzeTrackSectors: every point must carry a `speed`; a missing one is a `KeyError` in the source. The mean speed of an empty track (NaN in the source) is not reached, because an empty track yields no sectors.
- RaceData.DriverTelemetry: a zero track length (a Python `ZeroDivisionError` in `%`) is excluded by a precondition.
- The front end's `useState` cells, the loading and error screens, and every other React component are presentation and are not modelled.
- Nearest point: the comment at `src/components/TrackVisualization.tsx:92` asks for the point closest to the position. The code keeps the earliest of equally close points, because it replaces only on a strict `<`. The model follows the code.
