/** Pre-generated race data: the driver profiles, the telemetry generator
    that simulates laps with random variation, and the snapshot lookup that
    the playback server broadcasts. Random draws are an explicit stream
    `rand` of `random.random()` values consumed in the source's order;
    `random.uniform(a, b)` is `a + (b - a) * random.random()`, as in CPython. */
module RaceData {
  import opened Wrappers
  import opened PyRandom

  datatype DriverProfile = DriverProfile(
    id: string, name: string, aggression: real, tireManagement: real, consistency: real, color: string)

  /** `DRIVER_PROFILES`, in key order. */
  const DriverProfiles: seq<DriverProfile> := [
    DriverProfile("VER", "Max Verstappen", 0.95, 0.75, 0.98, "#ef4444"),
    DriverProfile("HAM", "Lewis Hamilton", 0.85, 0.90, 0.95, "#3b82f6"),
    DriverProfile("NOR", "Lando Norris", 0.88, 0.80, 0.92, "#22c55e"),
    DriverProfile("LEC", "Charles Leclerc", 0.92, 0.78, 0.90, "#f59e0b"),
    DriverProfile("SAI", "Carlos Sainz", 0.82, 0.85, 0.93, "#a855f7")
  ]

  /** Base lap times in seconds, per driver id. */
  const BaseLapTimes: map<string, real> :=
    map["VER" := 82.5, "HAM" := 83.0, "NOR" := 83.5, "LEC" := 83.2, "SAI" := 83.8]

  /** `DRIVER_PROFILES[id]`: the profile with that key, if any. */
  function FindProfile(id: string): (r: Option<DriverProfile>)
    ensures r.Some? <==> exists i :: 0 <= i < |DriverProfiles| && DriverProfiles[i].id == id
    ensures r.Some? ==> r.value in DriverProfiles && r.value.id == id
  {
    if id == "VER" then Some(DriverProfiles[0])
    else if id == "HAM" then Some(DriverProfiles[1])
    else if id == "NOR" then Some(DriverProfiles[2])
    else if id == "LEC" then Some(DriverProfiles[3])
    else if id == "SAI" then Some(DriverProfiles[4])
    else None
  }

  datatype Position = Position(x: real, y: real)

  /** One telemetry sample. Samples generated on a real track also carry the
      track point's coordinates. */
  datatype TelemetryPoint = TelemetryPoint(
    time: real, lap: int, distance: real, trackPosition: real,
    speed: real, tireWear: real, tireTemp: real, position: Option<Position>)

  datatype Scenario = Scenario(
    scenarioId: int, numDrivers: int, numLaps: int, aggressionFactor: real,
    drivers: seq<string>, raceData: map<string, seq<TelemetryPoint>>, trackLength: real)

  /** Every driver of the scenario has telemetry and a profile (the lookups
      the source performs without a default). */
  predicate WellFormed(sc: Scenario)
  {
    AllKnown(sc, sc.drivers)
  }

  /** Every driver in `ds` has telemetry in the scenario and a profile. */
  predicate AllKnown(sc: Scenario, ds: seq<string>)
  {
    forall d :: d in ds ==> d in sc.raceData && FindProfile(d).Some?
  }

  lemma AllKnownPrefix(sc: Scenario, ds: seq<string>, n: nat)
    requires AllKnown(sc, ds) && n <= |ds|
    ensures AllKnown(sc, ds[..n])
  {
    assert forall d :: d in ds[..n] ==> d in ds;
  }

  /** A vehicle entry of a snapshot. */
  datatype VehicleState = VehicleState(
    name: string, driverId: string, color: string, speedKph: real, lap: int,
    trackPosition: real, tireWear: real, tireTemp: real, distance: real, aggression: real)

  datatype RaceSnapshot = RaceSnapshot(time: real, vehicles: seq<VehicleState>)

  predicate SortedByTime(tel: seq<TelemetryPoint>)
  {
    forall i, j :: 0 <= i <= j < |tel| ==> tel[i].time <= tel[j].time
  }

  // ---------------------------------------------------------------------
  // Snapshot lookup

  /** Index of the first sample later than `t` (or |tel| if none is). */
  function FirstLater(tel: seq<TelemetryPoint>, t: real): (r: nat)
    ensures r <= |tel|
    ensures forall i :: 0 <= i < r ==> tel[i].time <= t
    ensures r < |tel| ==> tel[r].time > t
  {
    if |tel| == 0 || tel[0].time > t then 0 else 1 + FirstLater(tel[1..], t)
  }

  /** The sample a snapshot shows: the one just before the first later
      sample, if there is one. */
  function SelectedPoint(tel: seq<TelemetryPoint>, t: real): Option<TelemetryPoint>
  {
    var r := FirstLater(tel, t);
    if r == 0 then None else Some(tel[r - 1])
  }

  /** The snapshot entry built from a driver profile and a sample. */
  function VehicleOf(profile: DriverProfile, p: TelemetryPoint): VehicleState
  {
    VehicleState(profile.name, profile.id, profile.color, p.speed, p.lap,
                 p.trackPosition, p.tireWear, p.tireTemp, p.distance, profile.aggression)
  }

  /** The vehicles of a snapshot at time `t` for the drivers `ds`, in order. */
  function SnapshotVehicles(sc: Scenario, ds: seq<string>, t: real): seq<VehicleState>
    requires AllKnown(sc, ds)
  {
    if |ds| == 0 then []
    else
      var d := ds[|ds| - 1];
      AllKnownPrefix(sc, ds, |ds| - 1);
      SnapshotVehicles(sc, ds[..|ds| - 1], t) +
        match SelectedPoint(sc.raceData[d], t)
        case None => []
        case Some(p) => [VehicleOf(FindProfile(d).value, p)]
  }

  /** The per-driver search of `get_race_snapshot`: remember each sample at
      or before `t` and stop at the first later one. */
  method LastAtOrBefore(telemetry: seq<TelemetryPoint>, t: real) returns (closest: Option<TelemetryPoint>)
    ensures closest == SelectedPoint(telemetry, t)
  {
    closest := None;
    var j := 0;
    while j < |telemetry|
      invariant 0 <= j <= |telemetry|
      invariant forall i :: 0 <= i < j ==> telemetry[i].time <= t
      invariant closest == if j == 0 then None else Some(telemetry[j - 1])
    {
      if telemetry[j].time <= t {
        closest := Some(telemetry[j]);
      } else {
        break;
      }
      j := j + 1;
    }
    assert j == FirstLater(telemetry, t) by {
      FirstLaterUnique(telemetry, t, j);
    }
  }

  /** `get_race_snapshot`: for each driver in order, the last sample before
      the first sample later than `t`; drivers with no such sample are left
      out. */
  method GetRaceSnapshot(sc: Scenario, t: real) returns (snapshot: RaceSnapshot)
    requires WellFormed(sc)
    ensures snapshot.time == t
    ensures snapshot.vehicles == SnapshotVehicles(sc, sc.drivers, t)
  {
    var vehicles: seq<VehicleState> := [];
    for di := 0 to |sc.drivers|
      invariant AllKnown(sc, sc.drivers[..di])
      invariant vehicles == SnapshotVehicles(sc, sc.drivers[..di], t)
    {
      AllKnownPrefix(sc, sc.drivers, di + 1);
      var driverId := sc.drivers[di];
      var closest := LastAtOrBefore(sc.raceData[driverId], t);
      SnapshotStep(sc, sc.drivers, di, t);
      if closest.Some? {
        var profile := FindProfile(driverId).value;
        vehicles := vehicles + [VehicleOf(profile, closest.value)];
      }
    }
    assert sc.drivers[..|sc.drivers|] == sc.drivers;
    snapshot := RaceSnapshot(t, vehicles);
  }

  /** The snapshot over one more driver extends the previous one by that
      driver's vehicle, if any. */
  lemma SnapshotStep(sc: Scenario, ds: seq<string>, n: nat, t: real)
    requires AllKnown(sc, ds) && n < |ds|
    ensures AllKnown(sc, ds[..n]) && AllKnown(sc, ds[..n + 1])
    ensures SnapshotVehicles(sc, ds[..n + 1], t) ==
      SnapshotVehicles(sc, ds[..n], t) +
        match SelectedPoint(sc.raceData[ds[n]], t)
        case None => []
        case Some(p) => [VehicleOf(FindProfile(ds[n]).value, p)]
  {
    AllKnownPrefix(sc, ds, n);
    AllKnownPrefix(sc, ds, n + 1);
    assert ds[..n + 1][..n] == ds[..n];
  }

  /** The first later sample is characterised by its two properties. */
  lemma FirstLaterUnique(tel: seq<TelemetryPoint>, t: real, j: nat)
    requires j <= |tel|
    requires forall i :: 0 <= i < j ==> tel[i].time <= t
    requires j < |tel| ==> tel[j].time > t
    ensures FirstLater(tel, t) == j
  {
  }

  /** On time-sorted telemetry the selected sample is the latest one at or
      before `t`, and nothing is selected only when every sample is later. */
  lemma SelectedIsLatestAtOrBefore(tel: seq<TelemetryPoint>, t: real)
    requires SortedByTime(tel)
    ensures SelectedPoint(tel, t).None? <==> forall i :: 0 <= i < |tel| ==> tel[i].time > t
    ensures SelectedPoint(tel, t).Some? ==>
      exists k :: 0 <= k < |tel| && SelectedPoint(tel, t).value == tel[k] && tel[k].time <= t &&
        forall i :: k < i < |tel| ==> tel[i].time > t
  {
    var r := FirstLater(tel, t);
    if r > 0 {
      assert tel[r - 1].time <= t;
      forall i | r - 1 < i < |tel| ensures tel[i].time > t {
        assert tel[r].time <= tel[i].time;
      }
    } else {
      forall i | 0 <= i < |tel| ensures tel[i].time > t {
        assert tel[0].time <= tel[i].time;
      }
    }
  }

  /** A driver is in the snapshot iff its telemetry is non-empty and starts
      at or before `t`. */
  lemma SelectedIffStarted(tel: seq<TelemetryPoint>, t: real)
    ensures SelectedPoint(tel, t).Some? <==> |tel| > 0 && tel[0].time <= t
  {
  }

  /** A snapshot has at most one vehicle per driver. */
  lemma {:induction false} SnapshotSize(sc: Scenario, ds: seq<string>, t: real)
    requires AllKnown(sc, ds)
    ensures |SnapshotVehicles(sc, ds, t)| <= |ds|
  {
    if |ds| > 0 {
      AllKnownPrefix(sc, ds, |ds| - 1);
      SnapshotSize(sc, ds[..|ds| - 1], t);
    }
  }

  /** Every vehicle of a snapshot belongs to a listed driver that has
      started, and copies that driver's profile and selected sample. */
  lemma {:induction false} SnapshotSound(sc: Scenario, ds: seq<string>, t: real, v: VehicleState)
    requires AllKnown(sc, ds)
    requires v in SnapshotVehicles(sc, ds, t)
    ensures v.driverId in ds
    ensures SelectedPoint(sc.raceData[v.driverId], t).Some?
    ensures v == VehicleOf(FindProfile(v.driverId).value, SelectedPoint(sc.raceData[v.driverId], t).value)
  {
    var init, d := ds[..|ds| - 1], ds[|ds| - 1];
    AllKnownPrefix(sc, ds, |ds| - 1);
    if v in SnapshotVehicles(sc, init, t) {
      SnapshotSound(sc, init, t, v);
      assert v.driverId in ds by {
        assert forall e :: e in init ==> e in ds;
      }
    }
  }

  /** Every listed driver that has started appears in the snapshot. */
  lemma {:induction false} SnapshotComplete(sc: Scenario, ds: seq<string>, t: real, d: string)
    requires AllKnown(sc, ds)
    requires d in ds && SelectedPoint(sc.raceData[d], t).Some?
    ensures exists v :: v in SnapshotVehicles(sc, ds, t) && v.driverId == d
  {
    var init, last := ds[..|ds| - 1], ds[|ds| - 1];
    AllKnownPrefix(sc, ds, |ds| - 1);
    if d == last {
      var v := VehicleOf(FindProfile(d).value, SelectedPoint(sc.raceData[d], t).value);
      assert v in SnapshotVehicles(sc, ds, t);
    } else {
      assert d in init by {
        assert ds == init + [last];
      }
      SnapshotComplete(sc, init, t, d);
      var v :| v in SnapshotVehicles(sc, init, t) && v.driverId == d;
      assert v in SnapshotVehicles(sc, ds, t);
    }
  }

  // ---------------------------------------------------------------------
  // Telemetry generation

  /** Python's `int(x)` on a float: truncation toward zero. */
  function Trunc(x: real): int
  {
    if x >= 0.0 then x.Floor else -((-x).Floor)
  }

  /** Python's float `%`: the remainder has the sign of the divisor. */
  function PyMod(x: real, m: real): real
    requires m != 0.0
  {
    x - m * ((x / m).Floor as real)
  }

  /** For a positive track length the wrapped position lies in [0, length). */
  lemma PyModRange(x: real, m: real)
    requires m > 0.0
    ensures 0.0 <= PyMod(x, m) < m
  {
    var q := x / m;
    var f := q.Floor as real;
    assert f <= q < f + 1.0;
    assert m * q == x;
    MulLess(m, f, q);
    MulLess(m, q, f + 1.0);
    assert m * q < m * (f + 1.0);
    assert m * (f + 1.0) == m * f + m;
    assert x < m * f + m;
    assert m * f <= m * q;
    assert 0.0 <= x - m * f < m;
    assert PyMod(x, m) == x - m * f;
  }

  lemma MulLess(m: real, a: real, b: real)
    requires m > 0.0 && a <= b
    ensures m * a <= m * b
    ensures a < b ==> m * a < m * b
  {
    assert m * b - m * a == m * (b - a);
  }

  /** End of Python's slice `xs[:n]` for a list of length `len`. */
  function PySliceEnd(len: nat, n: int): (e: nat)
    ensures e <= len
  {
    if n >= 0 then (if n <= len then n else len)
    else if len + n >= 0 then len + n else 0
  }

  function ProfileIds(): (ids: seq<string>)
    ensures |ids| == |DriverProfiles|
    ensures forall i :: 0 <= i < |ids| ==> ids[i] == DriverProfiles[i].id
  {
    seq(|DriverProfiles|, i requires 0 <= i < |DriverProfiles| => DriverProfiles[i].id)
  }

  /** `list(DRIVER_PROFILES.keys())[:num_drivers]`. */
  function FirstDrivers(numDrivers: int): seq<string>
  {
    ProfileIds()[..PySliceEnd(|DriverProfiles|, numDrivers)]
  }

  /** The base lap time after the aggression adjustment. */
  function AdjustedBaseTime(profile: DriverProfile, base: real): real
  {
    if profile.aggression > 0.9 then base * 0.98
    else if profile.aggression < 0.8 then base * 1.02
    else base
  }

  /** The adjustment makes aggressive drivers 2% faster and cautious ones 2%
      slower; for the shipped profiles only VER and LEC change. */
  lemma AdjustedBaseTimes(profile: DriverProfile, base: real)
    requires base > 0.0
    ensures profile.aggression > 0.9 ==> AdjustedBaseTime(profile, base) < base
    ensures profile.aggression < 0.8 ==> AdjustedBaseTime(profile, base) > base
    ensures 0.8 <= profile.aggression <= 0.9 ==> AdjustedBaseTime(profile, base) == base
    ensures forall p :: p in DriverProfiles ==>
      (AdjustedBaseTime(p, BaseLapTimes[p.id]) != BaseLapTimes[p.id] <==> p.id == "VER" || p.id == "LEC")
  {
  }

  /** Sample `i` was taken at `0.5 * i` seconds. */
  predicate HalfSecondSteps(tel: seq<TelemetryPoint>)
  {
    forall i :: 0 <= i < |tel| ==> tel[i].time == 0.5 * (i as real)
  }

  lemma HalfSecondStepsSorted(tel: seq<TelemetryPoint>)
    requires HalfSecondSteps(tel)
    ensures SortedByTime(tel)
    ensures |tel| > 0 ==> tel[0].time == 0.0
  {
  }

  /** Laps are numbered 1..numLaps and never go back. */
  predicate LapsInOrder(tel: seq<TelemetryPoint>, numLaps: int)
  {
    && (forall i :: 0 <= i < |tel| ==> 1 <= tel[i].lap <= numLaps)
    && (forall i, j :: 0 <= i <= j < |tel| ==> tel[i].lap <= tel[j].lap)
  }

  /** `tire_wear` on lap `lap`: 15% of the unmanaged share per completed lap. */
  function LapWear(profile: DriverProfile, lap: int): real
  {
    (lap - 1) as real * (1.0 - profile.tireManagement) * 0.15
  }

  /** The time of lap `lap` for the draw `u`: the base time varied by up to
      twice the driver's inconsistency, then slowed by the lap's tire wear.
      Both generators compute it this way. */
  function LapTime(profile: DriverProfile, baseTime: real, lap: int, u: real): real
  {
    var consistencyVariation := (1.0 - profile.consistency) * 2.0;
    baseTime * (1.0 + Uniform(-consistencyVariation, consistencyVariation, u)) * (1.0 + LapWear(profile, lap))
  }

  /** `int(2 * lap_time)` samples, none when that is not positive. */
  function LapSamples(lapTime: real): nat
  {
    var n := Trunc(lapTime * 2.0);
    if n > 0 then n else 0
  }

  /** The synthetic generator after laps 1..n of one driver: the samples
      written and the draw counter, starting at draw `k0`. Each lap takes
      one draw for its lap time and one per sample for the tire
      temperature. */
  function SynthLaps(profile: DriverProfile, baseTime: real, n: nat, rand: nat -> real, k0: nat): (r: (nat, nat))
    ensures r.1 == k0 + n + r.0
  {
    if n == 0 then (0, k0)
    else
      var prev := SynthLaps(profile, baseTime, n - 1, rand, k0);
      var m := LapSamples(LapTime(profile, baseTime, n, rand(prev.1)));
      (prev.0 + m, prev.1 + 1 + m)
  }

  /** The number of laps `range(1, num_laps + 1)` drives. */
  function LapCount(numLaps: int): nat
  {
    if numLaps > 0 then numLaps else 0
  }

  /** Sample `i` lies in the block of lap `lap`: from `SynthLaps(lap - 1)`
      up to `SynthLaps(lap)`. */
  predicate InLapBlock(i: nat, lap: int, profile: DriverProfile, baseTime: real, rand: nat -> real, k0: nat)
  {
    1 <= lap &&
    SynthLaps(profile, baseTime, lap - 1, rand, k0).0 <= i < SynthLaps(profile, baseTime, lap, rand, k0).0
  }

  /** The distance starts at 0 and grows by `speed / 3.6 * 0.5` per sample. */
  predicate Odometer(tel: seq<TelemetryPoint>)
  {
    forall i :: 0 <= i < |tel| ==>
      tel[i].distance == (if i == 0 then 0.0 else tel[i - 1].distance) + tel[i].speed / 3.6 * 0.5
  }

  /** The track position wraps the distance at the track length, and no
      sample carries coordinates. */
  predicate WrappedOnTrack(tel: seq<TelemetryPoint>, trackLength: real)
    requires trackLength != 0.0
  {
    forall i :: 0 <= i < |tel| ==> tel[i].trackPosition == PyMod(tel[i].distance, trackLength) && tel[i].position.None?
  }

  /** Every sample of the synthetic generator written so far: the facts
      that hold of each prefix. */
  predicate SynthPrefix(tel: seq<TelemetryPoint>, profile: DriverProfile, baseTime: real, trackLength: real,
                        numLaps: int, rand: nat -> real, k0: nat)
    requires trackLength != 0.0
  {
    && HalfSecondSteps(tel)
    && LapsInOrder(tel, numLaps)
    && (forall i :: 0 <= i < |tel| ==> InLapBlock(i, tel[i].lap, profile, baseTime, rand, k0))
    && Odometer(tel)
    && WrappedOnTrack(tel, trackLength)
    && (forall i :: 0 <= i < |tel| ==> tel[i].tireWear == LapWear(profile, tel[i].lap) * 100.0)
  }

  /** One driver's synthetic telemetry as the generator writes it from
      draw `k0`: lap `l` holds the samples from `SynthLaps(l - 1)` up to
      `SynthLaps(l)`, samples are half a second apart from time 0, the
      distance grows by `speed / 3.6 * 0.5` per sample from 0, the track
      position wraps the distance at the track length, and the wear is
      the lap's wear as a percentage. */
  predicate SynthRun(tel: seq<TelemetryPoint>, profile: DriverProfile, baseTime: real, trackLength: real,
                     numLaps: int, rand: nat -> real, k0: nat)
    requires trackLength != 0.0
  {
    |tel| == SynthLaps(profile, baseTime, LapCount(numLaps), rand, k0).0 &&
    SynthPrefix(tel, profile, baseTime, trackLength, numLaps, rand, k0)
  }

  /** The samples of one lap written so far after the earlier laps
      `tel0`: the earlier samples are kept, the new ones all carry lap `lap`
      and its wear, and the times, distances and track positions follow the
      generator. */
  predicate LapTail(tel: seq<TelemetryPoint>, tel0: seq<TelemetryPoint>, lap: int, wear: real, trackLength: real)
    requires trackLength != 0.0
  {
    && |tel0| <= |tel| && tel[..|tel0|] == tel0
    && HalfSecondSteps(tel) && Odometer(tel) && WrappedOnTrack(tel, trackLength)
    && (forall i :: |tel0| <= i < |tel| ==> tel[i].lap == lap && tel[i].tireWear == wear)
  }

  /** Appending the next sample of the lap keeps the lap's facts. */
  lemma LapTailAppended(tel: seq<TelemetryPoint>, tel0: seq<TelemetryPoint>, p: TelemetryPoint, lap: int,
                        wear: real, trackLength: real)
    requires trackLength != 0.0
    requires LapTail(tel, tel0, lap, wear, trackLength)
    requires p.time == 0.5 * (|tel| as real) && p.lap == lap && p.tireWear == wear && p.position.None?
    requires p.distance == (if |tel| == 0 then 0.0 else tel[|tel| - 1].distance) + p.speed / 3.6 * 0.5
    requires p.trackPosition == PyMod(p.distance, trackLength)
    ensures LapTail(tel + [p], tel0, lap, wear, trackLength)
  {
    var t := tel + [p];
    assert forall i :: 0 <= i < |tel| ==> t[i] == tel[i];
    assert t[..|tel0|] == tel[..|tel0|];
    assert Odometer(t) by {
      forall i | 0 <= i < |t|
        ensures t[i].distance == (if i == 0 then 0.0 else t[i - 1].distance) + t[i].speed / 3.6 * 0.5
      {
        if i < |tel| {
          assert Odometer(tel);
          assert t[i] == tel[i];
          if i > 0 {
            assert t[i - 1] == tel[i - 1];
          }
        } else if i > 0 {
          assert t[i - 1] == tel[|tel| - 1];
        }
      }
    }
  }

  /** A lap whose block is filled (up to `SynthLaps(lap)`) after the earlier
      laps extends the generator's prefix facts to the new samples. */
  lemma LapTailComplete(tel: seq<TelemetryPoint>, tel0: seq<TelemetryPoint>, profile: DriverProfile,
                        baseTime: real, trackLength: real, numLaps: int, lap: int, rand: nat -> real, kd: nat)
    requires trackLength != 0.0 && 1 <= lap <= numLaps
    requires SynthLaps(profile, baseTime, lap - 1, rand, kd).0 == |tel0|
    requires |tel| <= SynthLaps(profile, baseTime, lap, rand, kd).0
    requires forall i :: 0 <= i < |tel0| ==> tel0[i].lap < lap
    requires SynthPrefix(tel0, profile, baseTime, trackLength, numLaps, rand, kd)
    requires LapTail(tel, tel0, lap, LapWear(profile, lap) * 100.0, trackLength)
    ensures forall i :: 0 <= i < |tel| ==> tel[i].lap <= lap
    ensures SynthPrefix(tel, profile, baseTime, trackLength, numLaps, rand, kd)
  {
    forall i | 0 <= i < |tel0|
      ensures tel[i] == tel0[i]
    {
      assert tel[..|tel0|][i] == tel[i];
    }
    assert forall i :: |tel0| <= i < |tel| ==> InLapBlock(i, tel[i].lap, profile, baseTime, rand, kd);
    assert LapsInOrder(tel, numLaps);
  }

  /** Sample `pointIdx` of `pointsPerLap` in a lap: the speed follows the
      lap's profile (accelerating below 30% of the lap, fast to 70%, then
      braking), reduced by half the tire wear and raised by aggression; the
      distance grows by that speed over half a second; the tire temperature
      takes the draw `u`. */
  function SynthSample(profile: DriverProfile, lap: int, pointIdx: nat, pointsPerLap: int, tireWear: real,
                       distance0: real, time: real, trackLength: real, sinPi: real -> real, u: real): (p: TelemetryPoint)
    requires pointIdx < pointsPerLap && trackLength != 0.0
    ensures p.time == time && p.lap == lap && p.position.None?
    ensures p.distance == distance0 + p.speed / 3.6 * 0.5
    ensures p.trackPosition == PyMod(p.distance, trackLength)
    ensures p.tireWear == tireWear * 100.0
  {
    var progress := pointIdx as real / pointsPerLap as real;
    var speedFactor :=
      if progress < 0.3 then 0.7 + progress * 1.0
      else if progress < 0.7 then 1.0 + sinPi(progress) * 0.3
      else 0.8 - (progress - 0.7) * 0.5;
    var speed := 250.0 * speedFactor * (1.0 - tireWear * 0.5) * (0.95 + profile.aggression * 0.1);
    var distance := distance0 + (speed / 3.6) * 0.5;
    TelemetryPoint(time, lap, distance, PyMod(distance, trackLength),
                   speed, tireWear * 100.0, 80.0 + speed * 0.1 + Uniform(-5.0, 5.0, u), None)
  }

  /** One lap of the generator loop: draw the lap time, then write
      `int(2 * lap_time)` samples half a second apart. `kd` is where the
      driver's draws started. */
  method SynthLap(profile: DriverProfile, baseTime: real, trackLength: real, numLaps: int, lap: int,
                  rand: nat -> real, sinPi: real -> real, kd: nat,
                  telemetry0: seq<TelemetryPoint>, distance0: real, time0: real, k0: nat)
    returns (telemetry: seq<TelemetryPoint>, currentDistance: real, currentTime: real, k: nat)
    requires trackLength != 0.0 && 1 <= lap <= numLaps
    requires (|telemetry0|, k0) == SynthLaps(profile, baseTime, lap - 1, rand, kd)
    requires distance0 == (if |telemetry0| == 0 then 0.0 else telemetry0[|telemetry0| - 1].distance)
    requires time0 == 0.5 * (|telemetry0| as real)
    requires forall i :: 0 <= i < |telemetry0| ==> telemetry0[i].lap < lap
    requires SynthPrefix(telemetry0, profile, baseTime, trackLength, numLaps, rand, kd)
    ensures (|telemetry|, k) == SynthLaps(profile, baseTime, lap, rand, kd)
    ensures currentDistance == (if |telemetry| == 0 then 0.0 else telemetry[|telemetry| - 1].distance)
    ensures currentTime == 0.5 * (|telemetry| as real)
    ensures forall i :: 0 <= i < |telemetry| ==> telemetry[i].lap <= lap
    ensures SynthPrefix(telemetry, profile, baseTime, trackLength, numLaps, rand, kd)
  {
    var lapTime := LapTime(profile, baseTime, lap, rand(k0));
    assert SynthLaps(profile, baseTime, lap, rand, kd) == (|telemetry0| + LapSamples(lapTime), k0 + 1 + LapSamples(lapTime));
    telemetry, currentDistance, currentTime, k :=
      LapSamplesOf(profile, trackLength, lap, sinPi, rand, lapTime, telemetry0, distance0, time0, k0 + 1);
    LapTailComplete(telemetry, telemetry0, profile, baseTime, trackLength, numLaps, lap, rand, kd);
  }

  /** The sample loop of one lap: `int(2 * lap_time)` samples half a second
      apart, each with its speed from the lap's speed profile, the
      accumulated distance and a tire temperature draw. */
  method LapSamplesOf(profile: DriverProfile, trackLength: real, lap: int, sinPi: real -> real,
                      rand: nat -> real, lapTime: real,
                      telemetry0: seq<TelemetryPoint>, distance0: real, time0: real, k1: nat)
    returns (telemetry: seq<TelemetryPoint>, currentDistance: real, currentTime: real, k: nat)
    requires trackLength != 0.0
    requires distance0 == (if |telemetry0| == 0 then 0.0 else telemetry0[|telemetry0| - 1].distance)
    requires time0 == 0.5 * (|telemetry0| as real)
    requires LapTail(telemetry0, telemetry0, lap, LapWear(profile, lap) * 100.0, trackLength)
    ensures |telemetry| == |telemetry0| + LapSamples(lapTime) && k == k1 + LapSamples(lapTime)
    ensures currentDistance == (if |telemetry| == 0 then 0.0 else telemetry[|telemetry| - 1].distance)
    ensures currentTime == 0.5 * (|telemetry| as real)
    ensures LapTail(telemetry, telemetry0, lap, LapWear(profile, lap) * 100.0, trackLength)
  {
    telemetry, currentDistance, currentTime, k := telemetry0, distance0, time0, k1;
    var tireWear := LapWear(profile, lap);
    var pointsPerLap := Trunc(lapTime * 2.0);
    var pointIdx := 0;
    while pointIdx < pointsPerLap
      invariant 0 <= pointIdx <= LapSamples(lapTime)
      invariant |telemetry| == |telemetry0| + pointIdx && k == k1 + pointIdx
      invariant currentDistance == if |telemetry| == 0 then 0.0 else telemetry[|telemetry| - 1].distance
      invariant currentTime == 0.5 * (|telemetry| as real)
      invariant LapTail(telemetry, telemetry0, lap, tireWear * 100.0, trackLength)
    {
      var sample := SynthSample(profile, lap, pointIdx, pointsPerLap, tireWear, currentDistance, currentTime,
                                trackLength, sinPi, rand(k));
      currentDistance := sample.distance;
      k := k + 1;
      LapTailAppended(telemetry, telemetry0, sample, lap, tireWear * 100.0, trackLength);
      telemetry := telemetry + [sample];
      currentTime := currentTime + 0.5;
      pointIdx := pointIdx + 1;
    }
  }

  /** One driver's telemetry: laps 1..numLaps, each sampled every half
      second for `int(2 * lap_time)` samples. `sinPi(p)` stands for
      `math.sin(p * math.pi)`. */
  method DriverTelemetry(profile: DriverProfile, baseTime: real, trackLength: real, numLaps: int,
                         rand: nat -> real, sinPi: real -> real, k0: nat)
    returns (telemetry: seq<TelemetryPoint>, k: nat)
    requires trackLength != 0.0
    ensures SynthRun(telemetry, profile, baseTime, trackLength, numLaps, rand, k0)
    ensures k == SynthLaps(profile, baseTime, LapCount(numLaps), rand, k0).1
  {
    telemetry := [];
    k := k0;
    var currentDistance := 0.0;
    var currentTime := 0.0;
    var lap := 1;
    while lap <= numLaps
      invariant 1 <= lap <= LapCount(numLaps) + 1
      invariant (|telemetry|, k) == SynthLaps(profile, baseTime, lap - 1, rand, k0)
      invariant currentDistance == if |telemetry| == 0 then 0.0 else telemetry[|telemetry| - 1].distance
      invariant currentTime == 0.5 * (|telemetry| as real)
      invariant forall i :: 0 <= i < |telemetry| ==> telemetry[i].lap < lap
      invariant SynthPrefix(telemetry, profile, baseTime, trackLength, numLaps, rand, k0)
    {
      telemetry, currentDistance, currentTime, k :=
        SynthLap(profile, baseTime, trackLength, numLaps, lap, rand, sinPi, k0, telemetry, currentDistance, currentTime, k);
      lap := lap + 1;
    }
  }

  /** The adjusted base lap time of shipped profile `i`. */
  function ShippedBaseTime(i: nat): real
    requires i < |DriverProfiles|
  {
    assert DriverProfiles[i].id in BaseLapTimes by {
      assert i == 0 || i == 1 || i == 2 || i == 3 || i == 4;
    }
    AdjustedBaseTime(DriverProfiles[i], BaseLapTimes[DriverProfiles[i].id])
  }

  /** The draw counter once the first `n` profiles' telemetry is
      generated, starting at `k0`. */
  function SynthDrawsBefore(n: nat, numLaps: int, rand: nat -> real, k0: nat): nat
    requires n <= |DriverProfiles|
  {
    if n == 0 then k0
    else SynthLaps(DriverProfiles[n - 1], ShippedBaseTime(n - 1), LapCount(numLaps), rand,
                   SynthDrawsBefore(n - 1, numLaps, rand, k0)).1
  }

  /** `tel` is what the generator writes for shipped profile `i` when the
      profiles before it were generated from `k0`. */
  predicate ShippedRun(tel: seq<TelemetryPoint>, i: nat, trackLength: real, numLaps: int, rand: nat -> real, k0: nat)
    requires i < |DriverProfiles| && trackLength != 0.0
  {
    SynthRun(tel, DriverProfiles[i], ShippedBaseTime(i), trackLength, numLaps, rand,
             SynthDrawsBefore(i, numLaps, rand, k0))
  }

  /** No two profiles share an id. */
  lemma ProfileIdsDistinct()
    ensures forall i, j :: 0 <= i < j < |DriverProfiles| ==> DriverProfiles[i].id != DriverProfiles[j].id
  {
  }

  /** One pass of the per-driver loop: profile `di` with its base lap time
      looked up by id and adjusted for aggression. */
  method ShippedDriverTelemetry(di: nat, trackLength: real, numLaps: int, rand: nat -> real, sinPi: real -> real,
                                k0: nat, kBefore: nat)
    returns (telemetry: seq<TelemetryPoint>, k: nat)
    requires di < |DriverProfiles| && trackLength != 0.0
    requires kBefore == SynthDrawsBefore(di, numLaps, rand, k0)
    ensures ShippedRun(telemetry, di, trackLength, numLaps, rand, k0)
    ensures k == SynthDrawsBefore(di + 1, numLaps, rand, k0)
  {
    var profile := DriverProfiles[di];
    var baseTime := AdjustedBaseTime(profile, BaseLapTimes[profile.id]);
    telemetry, k := DriverTelemetry(profile, baseTime, trackLength, numLaps, rand, sinPi, kBefore);
  }

  /** `generate_race_telemetry`: telemetry for the first `numDrivers`
      profiles, keyed by driver id, driver `i` generated from its adjusted
      base lap time and from the draws where driver `i - 1` stopped. The
      aggression factor is accepted and not used, as in the source. */
  method GenerateRaceTelemetry(trackLength: real, numLaps: int, numDrivers: int, aggressionFactor: real,
                               rand: nat -> real, sinPi: real -> real, k0: nat)
    returns (raceData: map<string, seq<TelemetryPoint>>, drivers: seq<string>, k: nat)
    requires trackLength != 0.0
    ensures drivers == FirstDrivers(numDrivers)
    ensures raceData.Keys == set d | d in drivers
    ensures forall i :: 0 <= i < |drivers| ==> ShippedRun(raceData[drivers[i]], i, trackLength, numLaps, rand, k0)
    ensures k == SynthDrawsBefore(|drivers|, numLaps, rand, k0)
  {
    drivers := FirstDrivers(numDrivers);
    raceData := map[];
    k := k0;
    ghost var runs: seq<seq<TelemetryPoint>> := [];
    FirstDriversDistinct(numDrivers);
    for di := 0 to |drivers|
      invariant k == SynthDrawsBefore(di, numLaps, rand, k0)
      invariant Stored(raceData, drivers[..di], runs)
      invariant forall i :: 0 <= i < |runs| ==> ShippedRun(runs[i], i, trackLength, numLaps, rand, k0)
    {
      var telemetry;
      telemetry, k := ShippedDriverTelemetry(di, trackLength, numLaps, rand, sinPi, k0, k);
      ShippedRunAppended(runs, telemetry, trackLength, numLaps, rand, k0);
      DriverStored(raceData, drivers, di, runs, telemetry);
      raceData := raceData[drivers[di] := telemetry];
      runs := runs + [telemetry];
    }
    assert drivers[..|drivers|] == drivers;
    ShippedRunsStored(raceData, drivers, runs, trackLength, numLaps, rand, k0);
  }

  /** The first drivers are distinct ids, at most one per profile. */
  lemma FirstDriversDistinct(numDrivers: int)
    ensures |FirstDrivers(numDrivers)| <= |DriverProfiles|
    ensures forall i, j :: 0 <= i < j < |FirstDrivers(numDrivers)| ==> FirstDrivers(numDrivers)[i] != FirstDrivers(numDrivers)[j]
  {
    ProfileIdsDistinct();
  }

  /** Race data holding the shipped runs under the drivers' ids gives each
      driver its shipped run. */
  lemma ShippedRunsStored(raceData: map<string, seq<TelemetryPoint>>, drivers: seq<string>,
                          runs: seq<seq<TelemetryPoint>>, trackLength: real, numLaps: int, rand: nat -> real, k0: nat)
    requires trackLength != 0.0 && |runs| <= |DriverProfiles|
    requires Stored(raceData, drivers, runs)
    requires forall i :: 0 <= i < |runs| ==> ShippedRun(runs[i], i, trackLength, numLaps, rand, k0)
    ensures forall i :: 0 <= i < |drivers| ==> ShippedRun(raceData[drivers[i]], i, trackLength, numLaps, rand, k0)
  {
    StoredEach(raceData, drivers, runs,
               (tel: seq<TelemetryPoint>, i: nat) => i < |DriverProfiles| && ShippedRun(tel, i, trackLength, numLaps, rand, k0));
  }

  /** The race data holds `runs[i]` under `drivers[i]` and nothing else. */
  ghost predicate Stored<V>(raceData: map<string, V>, drivers: seq<string>, runs: seq<V>)
  {
    && |runs| == |drivers|
    && raceData.Keys == (set d | d in drivers)
    && forall i :: 0 <= i < |drivers| ==> drivers[i] in raceData && raceData[drivers[i]] == runs[i]
  }

  /** What holds of each stored run holds of the entry under its driver. */
  lemma StoredEach<V>(raceData: map<string, V>, drivers: seq<string>, runs: seq<V>, P: (V, nat) -> bool)
    requires Stored(raceData, drivers, runs)
    requires forall i :: 0 <= i < |runs| ==> P(runs[i], i)
    ensures forall i :: 0 <= i < |drivers| ==> drivers[i] in raceData && P(raceData[drivers[i]], i)
  {
    forall i | 0 <= i < |drivers|
      ensures drivers[i] in raceData && P(raceData[drivers[i]], i)
    {
      assert raceData[drivers[i]] == runs[i];
    }
  }

  /** Appending the next profile's run keeps every run the shipped one. */
  lemma ShippedRunAppended(runs: seq<seq<TelemetryPoint>>, tel: seq<TelemetryPoint>, trackLength: real,
                           numLaps: int, rand: nat -> real, k0: nat)
    requires trackLength != 0.0 && |runs| < |DriverProfiles|
    requires forall i :: 0 <= i < |runs| ==> ShippedRun(runs[i], i, trackLength, numLaps, rand, k0)
    requires ShippedRun(tel, |runs|, trackLength, numLaps, rand, k0)
    ensures forall i :: 0 <= i < |runs + [tel]| ==> ShippedRun((runs + [tel])[i], i, trackLength, numLaps, rand, k0)
  {
    forall i | 0 <= i < |runs + [tel]|
      ensures ShippedRun((runs + [tel])[i], i, trackLength, numLaps, rand, k0)
    {
      if i < |runs| {
        assert (runs + [tel])[i] == runs[i];
      }
    }
  }

  /** Storing driver `n`'s telemetry under a fresh id keeps the earlier
      drivers' entries. */
  lemma DriverStored<V>(raceData: map<string, V>, drivers: seq<string>, n: nat, runs: seq<V>, v: V)
    requires n < |drivers|
    requires forall i :: 0 <= i < n ==> drivers[i] != drivers[n]
    requires Stored(raceData, drivers[..n], runs)
    ensures Stored(raceData[drivers[n] := v], drivers[..n + 1], runs + [v])
  {
    var before, after := drivers[..n], drivers[..n + 1];
    var updated, extended := raceData[drivers[n] := v], runs + [v];
    assert after == before + [drivers[n]];
    assert updated.Keys == set d | d in after by {
      assert forall d :: d in after <==> d in before || d == drivers[n];
    }
    forall i | 0 <= i < |after|
      ensures after[i] in updated && updated[after[i]] == extended[i]
    {
      if i < n {
        assert after[i] == before[i] == drivers[i];
        assert extended[i] == runs[i];
      }
    }
  }

  /** Every driver of generated telemetry has time-sorted samples starting at
      time 0, which is what the snapshot lookup relies on. */
  lemma GeneratedTelemetrySorted(raceData: map<string, seq<TelemetryPoint>>, d: string)
    requires d in raceData && HalfSecondSteps(raceData[d])
    ensures SortedByTime(raceData[d])
    ensures |raceData[d]| > 0 ==> raceData[d][0].time == 0.0
  {
    HalfSecondStepsSorted(raceData[d]);
  }
}
