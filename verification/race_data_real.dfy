/** Race generation on a real track: every lap replays the track's points in
    order, one telemetry sample per point, with the speed taken from the
    point (250 km/h when it has none) and the lap time spread evenly over
    the points. */
module RaceDataReal {
  import opened Wrappers
  import opened Track
  import opened RaceData
  import opened PyRandom
  import opened RealArith

  datatype Generated = Generated(raceData: map<string, seq<TelemetryPoint>>, drivers: seq<string>)

  /** A profile whose lap times stay positive: consistency above 0.5 keeps
      the random variation inside (-1, 1), and tyre management at most 1
      keeps the wear non-negative. */
  predicate Plausible(profile: DriverProfile)
  {
    0.5 < profile.consistency <= 1.0 && profile.tireManagement <= 1.0
  }

  /** Every shipped profile is plausible and has a positive adjusted base
      lap time. */
  lemma ShippedProfileReady(i: nat)
    requires i < |DriverProfiles|
    ensures DriverProfiles[i].id in BaseLapTimes
    ensures Plausible(DriverProfiles[i])
    ensures AdjustedBaseTime(DriverProfiles[i], BaseLapTimes[DriverProfiles[i].id]) > 0.0
  {
  }

  lemma DivPositive(a: real, b: real)
    requires a > 0.0 && b > 0.0
    ensures a / b > 0.0
  {
  }

  predicate StrictlyIncreasingTimes(tel: seq<TelemetryPoint>)
  {
    forall i, j :: 0 <= i < j < |tel| ==> tel[i].time < tel[j].time
  }

  /** `sample` is track point `j` driven on lap `lap`: it carries the
      point's distance as track position, its coordinates, and the distance
      of the completed laps plus the point's distance. */
  predicate OnPoint(sample: TelemetryPoint, j: nat, lap: int, track: TrackData)
    requires j < |track.points|
  {
    var p := track.points[j];
    && sample.lap == lap
    && sample.trackPosition == p.distance
    && sample.distance == (lap - 1) as real * track.totalLength + p.distance
    && sample.position == Some(Position(p.x, p.y))
  }

  /** Sample `i` replays track point `i % |points|` on lap `i / |points| + 1`. */
  predicate ReplaysPoint(sample: TelemetryPoint, i: nat, track: TrackData)
    requires |track.points| > 0
  {
    OnPoint(sample, i % |track.points|, i / |track.points| + 1, track)
  }

  /** Euclidean division of `q * n + r` by `n` when `0 <= r < n`. */
  lemma DivModOf(q: nat, n: nat, r: nat)
    requires r < n
    ensures (q * n + r) / n == q
    ensures (q * n + r) % n == r
  {
    var x := q * n + r;
    var d, m := x / n, x % n;
    assert x == d * n + m && 0 <= m < n;
    assert (d - q) * n == r - m by {
      assert d * n - q * n == (d - q) * n;
    }
    MulAwayFromZero(d - q, n);
  }

  lemma MulAwayFromZero(a: int, n: int)
    requires n >= 0
    ensures a >= 1 ==> a * n >= n
    ensures a <= -1 ==> a * n <= -n
  {
    if a >= 1 {
      assert a * n - n == (a - 1) * n;
    } else if a <= -1 {
      assert a * n + n == (a + 1) * n;
    }
  }

  /** The random lap-time factor stays positive when the variation is below 1. */
  lemma VariationFactorPositive(cv: real, u: real)
    requires 0.0 <= cv < 1.0 && 0.0 <= u < 1.0
    ensures 1.0 + Uniform(-cv, cv, u) > 0.0
  {
    assert (cv + cv) * u >= 0.0;
  }

  /** The draw counter after `m` track points driven from `k`: a roll per
      point, a speed factor when the roll exceeds the consistency, and a
      tire temperature draw. */
  function PointDraws(profile: DriverProfile, m: nat, rand: nat -> real, k: nat): (r: nat)
    ensures r >= k + 2 * m
  {
    if m == 0 then k
    else
      var before := PointDraws(profile, m - 1, rand, k);
      before + (if rand(before) > profile.consistency then 3 else 2)
  }

  /** The time `j` steps of length `step` take. */
  function Ticks(j: nat, step: real): real
  {
    j as real * step
  }

  /** The clock and the draw counter once `laps` laps of `n` points are
      driven from time 0 and counter `k0`: each lap draws its lap time and
      then advances the clock by that lap time, a share of it per point. */
  function LapsBefore(profile: DriverProfile, baseTime: real, n: nat, laps: nat, rand: nat -> real, k0: nat): (r: (real, nat))
    requires n > 0
    ensures r.1 >= k0 + laps
  {
    if laps == 0 then (0.0, k0)
    else
      var prev := LapsBefore(profile, baseTime, n, laps - 1, rand, k0);
      var lapTime := LapTime(profile, baseTime, laps, rand(prev.1));
      (prev.0 + Ticks(n, lapTime / n as real), PointDraws(profile, n, rand, prev.1 + 1))
  }

  /** `sample` is taken `j` per-point times after the start of lap `lap` of
      a run over `n` points, the per-point time being that lap's time over
      `n`, and carries the lap's tire wear as a percentage. */
  ghost predicate TimedAt(sample: TelemetryPoint, lap: nat, j: nat, profile: DriverProfile, baseTime: real, n: nat,
                          rand: nat -> real, k0: nat)
    requires n > 0 && lap >= 1
  {
    var start := LapsBefore(profile, baseTime, n, lap - 1, rand, k0);
    && sample.time == start.0 + Ticks(j, LapTime(profile, baseTime, lap, rand(start.1)) / n as real)
    && sample.tireWear == LapWear(profile, lap) * 100.0
  }

  /** Each lap ends exactly its lap time after it started: spreading the lap
      time over the points and stepping once per point loses nothing (in
      exact arithmetic). */
  lemma LapClock(profile: DriverProfile, baseTime: real, n: nat, lap: nat, rand: nat -> real, k0: nat)
    requires n > 0 && lap >= 1
    ensures var prev := LapsBefore(profile, baseTime, n, lap - 1, rand, k0);
      LapsBefore(profile, baseTime, n, lap, rand, k0).0 == prev.0 + LapTime(profile, baseTime, lap, rand(prev.1))
  {
    var prev := LapsBefore(profile, baseTime, n, lap - 1, rand, k0);
    var lapTime := LapTime(profile, baseTime, lap, rand(prev.1));
    assert Ticks(n, lapTime / n as real) == lapTime by {
      assert n as real * (lapTime / n as real) == lapTime;
    }
  }

  /** Sample `i` of a run over `n` points is timed as point `i mod n` of lap
      `i div n + 1`. */
  ghost predicate TimedSample(sample: TelemetryPoint, i: nat, profile: DriverProfile, baseTime: real, n: nat,
                              rand: nat -> real, k0: nat)
    requires n > 0
  {
    TimedAt(sample, i / n + 1, i % n, profile, baseTime, n, rand, k0)
  }

  /** Samples from index `from` on taken every `step` after `time0` are
      strictly increasing in time and fall before `time0` plus as many steps
      as there are samples. */
  lemma EvenStepsIncrease(tel: seq<TelemetryPoint>, from: nat, time0: real, step: real, end: real)
    requires from <= |tel| && step > 0.0
    requires forall i :: from <= i < |tel| ==> tel[i].time == time0 + Ticks(i - from, step)
    requires end == time0 + Ticks(|tel| - from, step)
    ensures forall i, j :: from <= i < j < |tel| ==> tel[i].time < tel[j].time
    ensures forall i :: from <= i < |tel| ==> time0 <= tel[i].time < end
  {
    forall i, j | from <= i < j < |tel|
      ensures tel[i].time < tel[j].time
    {
      assert tel[j].time - tel[i].time == (j - i) as real * step;
    }
    forall i | from <= i < |tel|
      ensures time0 <= tel[i].time < end
    {
      assert end - tel[i].time == (|tel| - i) as real * step;
    }
  }

  /** The speed track point `p` is driven at with tire wear `tireWear`:
      the point's speed (250 km/h when it has none) scaled by the driver's
      aggression and the wear, then by `uniform(0.95, 1.05)` when the
      consistency roll `roll` exceeds the consistency. */
  function PointSpeed(profile: DriverProfile, p: TrackPoint, tireWear: real, roll: real, u: real): real
  {
    var speed := p.speed.GetOr(250.0) * (0.95 + profile.aggression * 0.1) * (1.0 - tireWear * 0.5);
    if roll > profile.consistency then speed * Uniform(0.95, 1.05, u) else speed
  }

  /** A passed roll leaves the scaled speed as it is; a failed one moves a
      non-negative speed by at most 5 % either way. */
  lemma PointSpeedWithin(profile: DriverProfile, p: TrackPoint, tireWear: real, roll: real, u: real)
    requires 0.0 <= u < 1.0
    ensures var scaled := p.speed.GetOr(250.0) * (0.95 + profile.aggression * 0.1) * (1.0 - tireWear * 0.5);
      && (roll <= profile.consistency ==> PointSpeed(profile, p, tireWear, roll, u) == scaled)
      && (scaled >= 0.0 ==> 0.95 * scaled <= PointSpeed(profile, p, tireWear, roll, u) <= 1.05 * scaled)
  {
    var scaled := p.speed.GetOr(250.0) * (0.95 + profile.aggression * 0.1) * (1.0 - tireWear * 0.5);
    UniformRange(0.95, 1.05, u);
    if scaled >= 0.0 && roll > profile.consistency {
      var f := Uniform(0.95, 1.05, u);
      assert PointSpeed(profile, p, tireWear, roll, u) == scaled * f;
      MulNonneg(scaled, f - 0.95);
      MulNonneg(scaled, 1.05 - f);
      assert scaled * f - 0.95 * scaled == scaled * (f - 0.95);
      assert 1.05 * scaled - scaled * f == scaled * (1.05 - f);
    }
  }

  /** The sample of track point `pointIdx` on lap `lap`, taken at
      `currentTime`: the point's speed (250 km/h when it has none) scaled by
      the driver's aggression and the lap's tire wear, varied when the roll
      exceeds the consistency, and a tire temperature draw. */
  method DrivePoint(profile: DriverProfile, track: TrackData, lap: int, tireWear: real, pointIdx: nat,
                    currentTime: real, rand: nat -> real, k0: nat)
    returns (sample: TelemetryPoint, k: nat)
    requires pointIdx < |track.points|
    ensures k == k0 + (if rand(k0) > profile.consistency then 3 else 2)
    ensures OnPoint(sample, pointIdx, lap, track)
    ensures sample.time == currentTime && sample.tireWear == tireWear * 100.0
    ensures sample.speed == PointSpeed(profile, track.points[pointIdx], tireWear, rand(k0), rand(k0 + 1))
    ensures sample.tireTemp == 80.0 + sample.speed * 0.1 + Uniform(-5.0, 5.0, rand(k - 1))
    ensures 0.0 <= rand(k - 1) < 1.0 ==> 75.0 <= sample.tireTemp - sample.speed * 0.1 <= 85.0
  {
    k := k0;
    var trackPoint := track.points[pointIdx];
    var baseSpeed := trackPoint.speed.GetOr(250.0);
    var speed := baseSpeed * (0.95 + profile.aggression * 0.1);
    speed := speed * (1.0 - tireWear * 0.5);
    var roll := rand(k);
    k := k + 1;
    if roll > profile.consistency {
      speed := speed * Uniform(0.95, 1.05, rand(k));
      k := k + 1;
    }
    var trackPosition := trackPoint.distance;
    var totalDistance := (lap - 1) as real * track.totalLength + trackPosition;
    if 0.0 <= rand(k) < 1.0 {
      UniformRange(-5.0, 5.0, rand(k));
    }
    var tireTemp := 80.0 + speed * 0.1 + Uniform(-5.0, 5.0, rand(k));
    k := k + 1;
    sample := TelemetryPoint(currentTime, lap, totalDistance, trackPosition, speed,
                             tireWear * 100.0, tireTemp, Some(Position(trackPoint.x, trackPoint.y)));
  }

  /** One lap on the real track: a sample per track point, in order, each
      `timePerPoint` after the previous one. Appends to the samples of the
      earlier laps. */
  method DriveLap(profile: DriverProfile, track: TrackData, lap: int, tireWear: real, timePerPoint: real,
                  telemetry0: seq<TelemetryPoint>, time0: real, rand: nat -> real, k0: nat)
    returns (telemetry: seq<TelemetryPoint>, currentTime: real, k: nat)
    requires |track.points| > 0 && lap >= 1
    requires |telemetry0| == (lap - 1) * |track.points|
    ensures k == PointDraws(profile, |track.points|, rand, k0)
    ensures |telemetry| == |telemetry0| + |track.points|
    ensures telemetry[..|telemetry0|] == telemetry0
    ensures forall i :: |telemetry0| <= i < |telemetry| ==> ReplaysPoint(telemetry[i], i, track)
    ensures forall i :: |telemetry0| <= i < |telemetry| ==>
      telemetry[i].time == time0 + Ticks(i - |telemetry0|, timePerPoint) && telemetry[i].tireWear == tireWear * 100.0
    ensures currentTime == time0 + Ticks(|track.points|, timePerPoint)
    ensures timePerPoint > 0.0 ==>
      && (forall i, j :: |telemetry0| <= i < j < |telemetry| ==> telemetry[i].time < telemetry[j].time)
      && (forall i :: |telemetry0| <= i < |telemetry| ==> time0 <= telemetry[i].time < currentTime)
  {
    var n := |track.points|;
    telemetry := telemetry0;
    currentTime := time0;
    k := k0;
    for pointIdx := 0 to n
      invariant k == PointDraws(profile, pointIdx, rand, k0)
      invariant |telemetry| == |telemetry0| + pointIdx
      invariant telemetry[..|telemetry0|] == telemetry0
      invariant forall i :: |telemetry0| <= i < |telemetry| ==> OnPoint(telemetry[i], i - |telemetry0|, lap, track)
      invariant forall i :: |telemetry0| <= i < |telemetry| ==>
        telemetry[i].time == time0 + Ticks(i - |telemetry0|, timePerPoint) && telemetry[i].tireWear == tireWear * 100.0
      invariant currentTime == time0 + Ticks(pointIdx, timePerPoint)
    {
      var sample;
      sample, k := DrivePoint(profile, track, lap, tireWear, pointIdx, currentTime, rand, k);
      telemetry := telemetry + [sample];
      currentTime := currentTime + timePerPoint;
    }
    forall i | |telemetry0| <= i < |telemetry|
      ensures ReplaysPoint(telemetry[i], i, track)
    {
      DivModOf(lap - 1, n, i - |telemetry0|);
    }
    if timePerPoint > 0.0 {
      EvenStepsIncrease(telemetry, |telemetry0|, time0, timePerPoint, currentTime);
    }
  }

  /** A plausible profile with a positive base time and a unit draw has a
      positive lap time on every lap from the first on. */
  lemma LapTimePositive(profile: DriverProfile, baseTime: real, lap: int, u: real)
    requires Plausible(profile) && baseTime > 0.0 && lap >= 1 && 0.0 <= u < 1.0
    ensures LapTime(profile, baseTime, lap, u) > 0.0
  {
    var cv := (1.0 - profile.consistency) * 2.0;
    VariationFactorPositive(cv, u);
    var varied := baseTime * (1.0 + Uniform(-cv, cv, u));
    MulPositive(baseTime, 1.0 + Uniform(-cv, cv, u));
    LapWearNonnegative(profile, lap);
    MulPositive(varied, 1.0 + LapWear(profile, lap));
    assert LapTime(profile, baseTime, lap, u) == varied * (1.0 + LapWear(profile, lap));
  }

  /** A profile that manages its tires at most fully wears them from the
      first lap on. */
  lemma LapWearNonnegative(profile: DriverProfile, lap: int)
    requires profile.tireManagement <= 1.0 && lap >= 1
    ensures LapWear(profile, lap) >= 0.0
  {
    var laps, tm := (lap - 1) as real, 1.0 - profile.tireManagement;
    assert laps * tm >= 0.0 by {
      if laps > 0.0 {
        MulLess(laps, 0.0, tm);
      }
    }
    assert LapWear(profile, lap) == laps * tm * 0.15;
  }

  /** Samples `from` to `from + n - 1`, the lap `lap` of a run over `n`
      points, are timed as `TimedSample` says when each is timed at its
      offset into the lap. */
  lemma LapTimed(tel: seq<TelemetryPoint>, from: nat, lap: nat, profile: DriverProfile, baseTime: real, n: nat,
                 rand: nat -> real, k0: nat)
    requires n > 0 && lap >= 1 && from == (lap - 1) * n && |tel| == from + n
    requires forall i :: from <= i < |tel| ==> TimedAt(tel[i], lap, i - from, profile, baseTime, n, rand, k0)
    ensures forall i :: from <= i < |tel| ==> TimedSample(tel[i], i, profile, baseTime, n, rand, k0)
  {
    forall i | from <= i < |tel|
      ensures TimedSample(tel[i], i, profile, baseTime, n, rand, k0)
    {
      DivModOf(lap - 1, n, i - from);
    }
  }

  /** A lap driven from where `LapsBefore` puts lap `lap - 1`, with the
      lap's time spread evenly over its `n` samples, ends where `LapsBefore`
      puts lap `lap`, and each of its samples is timed at its offset. */
  lemma LapClosed(tel: seq<TelemetryPoint>, from: nat, lap: nat, profile: DriverProfile, baseTime: real, n: nat,
                  rand: nat -> real, k0: nat, kStart: nat, timePerPoint: real, currentTime: real, k: nat)
    requires n > 0 && lap >= 1 && from <= |tel|
    requires LapsBefore(profile, baseTime, n, lap - 1, rand, k0).1 == kStart
    requires timePerPoint == LapTime(profile, baseTime, lap, rand(kStart)) / n as real
    requires forall i :: from <= i < |tel| ==>
      && tel[i].time == LapsBefore(profile, baseTime, n, lap - 1, rand, k0).0 + Ticks(i - from, timePerPoint)
      && tel[i].tireWear == LapWear(profile, lap) * 100.0
    requires currentTime == LapsBefore(profile, baseTime, n, lap - 1, rand, k0).0 + Ticks(n, timePerPoint)
    requires k == PointDraws(profile, n, rand, kStart + 1)
    ensures (currentTime, k) == LapsBefore(profile, baseTime, n, lap, rand, k0)
    ensures forall i :: from <= i < |tel| ==> TimedAt(tel[i], lap, i - from, profile, baseTime, n, rand, k0)
  {
    var start := LapsBefore(profile, baseTime, n, lap - 1, rand, k0);
    forall i | from <= i < |tel|
      ensures TimedAt(tel[i], lap, i - from, profile, baseTime, n, rand, k0)
    {
      assert tel[i].time == start.0 + Ticks(i - from, timePerPoint);
    }
  }

  /** One pass of the lap loop: draw the lap time, slow it by the lap's tire
      wear, spread it evenly over the points and drive them. The clock and
      the draw counter move from where `LapsBefore` puts lap `lap - 1` to
      where it puts lap `lap`. */
  method RealLap(profile: DriverProfile, baseTime: real, track: TrackData, lap: nat, rand: nat -> real, k0: nat,
                 telemetry0: seq<TelemetryPoint>, time0: real, kStart: nat)
    returns (telemetry: seq<TelemetryPoint>, currentTime: real, k: nat)
    requires |track.points| > 0 && lap >= 1
    requires |telemetry0| == (lap - 1) * |track.points|
    requires (time0, kStart) == LapsBefore(profile, baseTime, |track.points|, lap - 1, rand, k0)
    ensures (currentTime, k) == LapsBefore(profile, baseTime, |track.points|, lap, rand, k0)
    ensures |telemetry| == |telemetry0| + |track.points|
    ensures telemetry[..|telemetry0|] == telemetry0
    ensures forall i :: |telemetry0| <= i < |telemetry| ==> ReplaysPoint(telemetry[i], i, track)
    ensures forall i :: |telemetry0| <= i < |telemetry| ==>
      TimedSample(telemetry[i], i, profile, baseTime, |track.points|, rand, k0)
    ensures UnitDraws(rand) && Plausible(profile) && baseTime > 0.0 ==>
      && (forall i, j :: |telemetry0| <= i < j < |telemetry| ==> telemetry[i].time < telemetry[j].time)
      && (forall i :: |telemetry0| <= i < |telemetry| ==> time0 <= telemetry[i].time < currentTime)
  {
    var n := |track.points|;
    var lapTime := LapTime(profile, baseTime, lap, rand(kStart));
    if UnitDraws(rand) && Plausible(profile) && baseTime > 0.0 {
      LapTimePositive(profile, baseTime, lap, rand(kStart));
    }
    k := kStart + 1;
    var tireWear := LapWear(profile, lap);
    var pointsPerLap := n;
    var timePerPoint := lapTime / pointsPerLap as real;
    if lapTime > 0.0 {
      DivPositive(lapTime, pointsPerLap as real);
    }
    telemetry, currentTime, k := DriveLap(profile, track, lap, tireWear, timePerPoint, telemetry0, time0, rand, k);
    LapClosed(telemetry, |telemetry0|, lap, profile, baseTime, n, rand, k0, kStart, timePerPoint, currentTime, k);
    LapTimed(telemetry, |telemetry0|, lap, profile, baseTime, n, rand, k0);
  }

  /** Appending samples keeps what was established about the earlier ones. */
  lemma PrefixKept(before: seq<TelemetryPoint>, tel: seq<TelemetryPoint>, track: TrackData, profile: DriverProfile,
                   baseTime: real, rand: nat -> real, k0: nat)
    requires |track.points| > 0 && |before| <= |tel| && tel[..|before|] == before
    requires forall i :: 0 <= i < |before| ==> ReplaysPoint(before[i], i, track)
    requires forall i :: 0 <= i < |before| ==> TimedSample(before[i], i, profile, baseTime, |track.points|, rand, k0)
    ensures forall i :: 0 <= i < |before| ==> ReplaysPoint(tel[i], i, track)
    ensures forall i :: 0 <= i < |before| ==> TimedSample(tel[i], i, profile, baseTime, |track.points|, rand, k0)
    ensures |before| > 0 ==> tel[0] == before[0]
  {
    forall i | 0 <= i < |before|
      ensures tel[i] == before[i]
    {
      assert tel[..|before|][i] == tel[i];
    }
  }

  /** Two strictly increasing runs of samples, the first ending before the
      second starts, make one strictly increasing run, and it ends before
      the second run's bound. */
  lemma JoinIncreasing(before: seq<TelemetryPoint>, tel: seq<TelemetryPoint>, boundary: real, end: real)
    requires |before| < |tel| && tel[..|before|] == before
    requires StrictlyIncreasingTimes(before)
    requires forall i :: 0 <= i < |before| ==> before[i].time < boundary
    requires forall i, j :: |before| <= i < j < |tel| ==> tel[i].time < tel[j].time
    requires forall i :: |before| <= i < |tel| ==> boundary <= tel[i].time < end
    ensures StrictlyIncreasingTimes(tel)
    ensures forall i :: 0 <= i < |tel| ==> tel[i].time < end
  {
    assert boundary < end by {
      assert boundary <= tel[|before|].time < end;
    }
    forall i | 0 <= i < |before|
      ensures tel[i] == before[i]
    {
      assert tel[..|before|][i] == tel[i];
    }
  }

  /** One driver's telemetry on the real track: `numLaps` laps (none when it
      is below 1) of one sample per point. Sample `i` is taken `i mod n`
      per-point times into lap `i div n + 1`, the per-point time being that
      lap's time divided by the number of points, so with random draws in
      [0, 1) the times are strictly increasing. */
  method RealTrackTelemetry(profile: DriverProfile, baseTime: real, track: TrackData, numLaps: int,
                            rand: nat -> real, k0: nat)
    returns (telemetry: seq<TelemetryPoint>, k: nat)
    requires |track.points| > 0
    ensures k == LapsBefore(profile, baseTime, |track.points|, LapCount(numLaps), rand, k0).1
    ensures |telemetry| == LapCount(numLaps) * |track.points|
    ensures forall i :: 0 <= i < |telemetry| ==> ReplaysPoint(telemetry[i], i, track)
    ensures forall i :: 0 <= i < |telemetry| ==> TimedSample(telemetry[i], i, profile, baseTime, |track.points|, rand, k0)
    ensures |telemetry| > 0 ==> telemetry[0].time == 0.0
    ensures UnitDraws(rand) && Plausible(profile) && baseTime > 0.0 ==> StrictlyIncreasingTimes(telemetry)
  {
    var n := |track.points|;
    ghost var increasing := UnitDraws(rand) && Plausible(profile) && baseTime > 0.0;
    telemetry := [];
    k := k0;
    var currentTime := 0.0;
    var lap: nat := 1;
    while lap <= numLaps
      invariant 1 <= lap <= LapCount(numLaps) + 1
      invariant (currentTime, k) == LapsBefore(profile, baseTime, n, lap - 1, rand, k0)
      invariant |telemetry| == (lap - 1) * n
      invariant forall i :: 0 <= i < |telemetry| ==> ReplaysPoint(telemetry[i], i, track)
      invariant forall i :: 0 <= i < |telemetry| ==> TimedSample(telemetry[i], i, profile, baseTime, n, rand, k0)
      invariant |telemetry| > 0 ==> telemetry[0].time == 0.0
      invariant increasing ==> StrictlyIncreasingTimes(telemetry)
      invariant increasing ==> forall i :: 0 <= i < |telemetry| ==> telemetry[i].time < currentTime
    {
      ghost var before, lapStart := telemetry, currentTime;
      telemetry, currentTime, k := RealLap(profile, baseTime, track, lap, rand, k0, telemetry, currentTime, k);
      PrefixKept(before, telemetry, track, profile, baseTime, rand, k0);
      if increasing {
        JoinIncreasing(before, telemetry, lapStart, currentTime);
      }
      assert |telemetry| == lap * n by {
        assert (lap - 1) * n + n == lap * n;
      }
      lap := lap + 1;
    }
    assert lap - 1 == LapCount(numLaps);
  }

  /** The per-driver guarantees of the real-track generator for a driver
      whose draws start at `kd`: `numLaps` laps of one sample per point,
      starting at time 0, each sample replaying its point and timed at its
      offset into its lap, strictly increasing in time for unit draws. */
  ghost predicate ReplaysTrack(tel: seq<TelemetryPoint>, track: TrackData, numLaps: int, profile: DriverProfile,
                               baseTime: real, rand: nat -> real, kd: nat)
  {
    && |tel| == LapCount(numLaps) * |track.points|
    && (|tel| > 0 ==> tel[0].time == 0.0)
    && (|track.points| > 0 ==> forall i :: 0 <= i < |tel| ==>
          ReplaysPoint(tel[i], i, track) && TimedSample(tel[i], i, profile, baseTime, |track.points|, rand, kd))
    && (UnitDraws(rand) ==> StrictlyIncreasingTimes(tel))
  }

  /** The draw counter once the first `m` shipped profiles have driven
      `numLaps` laps of `n` points, starting at `k0`. No draw is taken when
      the track has no points. */
  function RealDrawsBefore(m: nat, n: nat, numLaps: int, rand: nat -> real, k0: nat): nat
    requires m <= |DriverProfiles|
  {
    if m == 0 || n == 0 then k0
    else LapsBefore(DriverProfiles[m - 1], ShippedBaseTime(m - 1), n, LapCount(numLaps), rand,
                    RealDrawsBefore(m - 1, n, numLaps, rand, k0)).1
  }

  /** `tel` is what the generator writes for shipped profile `i` when the
      profiles before it drove from counter `k0`. */
  ghost predicate ShippedReplay(tel: seq<TelemetryPoint>, i: nat, track: TrackData, numLaps: int, rand: nat -> real, k0: nat)
    requires i < |DriverProfiles|
  {
    ReplaysTrack(tel, track, numLaps, DriverProfiles[i], ShippedBaseTime(i), rand,
                 RealDrawsBefore(i, |track.points|, numLaps, rand, k0))
  }

  /** One pass of the per-driver loop: shipped profile `di` with its base
      lap time looked up by id and adjusted for aggression. */
  method ShippedRealTelemetry(di: nat, track: TrackData, numLaps: int, rand: nat -> real, k0: nat, kBefore: nat)
    returns (telemetry: seq<TelemetryPoint>, k: nat)
    requires di < |DriverProfiles|
    requires |track.points| > 0 || numLaps < 1
    requires kBefore == RealDrawsBefore(di, |track.points|, numLaps, rand, k0)
    ensures ShippedReplay(telemetry, di, track, numLaps, rand, k0)
    ensures k == RealDrawsBefore(di + 1, |track.points|, numLaps, rand, k0)
  {
    var profile := DriverProfiles[di];
    ShippedProfileReady(di);
    var baseTime := AdjustedBaseTime(profile, BaseLapTimes[profile.id]);
    if |track.points| > 0 {
      telemetry, k := RealTrackTelemetry(profile, baseTime, track, numLaps, rand, kBefore);
    } else {
      // no lap is driven: the loop over laps never reaches the division
      telemetry, k := [], kBefore;
    }
  }

  /** The per-driver loop of the generator, once the track is known to be
      drivable: driver `i` replays the track from where driver `i - 1`
      stopped drawing. */
  method ReplayDrivers(track: TrackData, numLaps: int, numDrivers: int, rand: nat -> real, k0: nat)
    returns (raceData: map<string, seq<TelemetryPoint>>, k: nat)
    requires |track.points| > 0 || numLaps < 1 || |FirstDrivers(numDrivers)| == 0
    ensures raceData.Keys == set d | d in FirstDrivers(numDrivers)
    ensures forall i :: 0 <= i < |FirstDrivers(numDrivers)| ==>
      ShippedReplay(raceData[FirstDrivers(numDrivers)[i]], i, track, numLaps, rand, k0)
    ensures k == RealDrawsBefore(|FirstDrivers(numDrivers)|, |track.points|, numLaps, rand, k0)
  {
    var drivers := FirstDrivers(numDrivers);
    k := k0;
    raceData := map[];
    ghost var runs: seq<seq<TelemetryPoint>> := [];
    FirstDriversDistinct(numDrivers);
    for di := 0 to |drivers|
      invariant k == RealDrawsBefore(di, |track.points|, numLaps, rand, k0)
      invariant Stored(raceData, drivers[..di], runs)
      invariant forall i :: 0 <= i < |runs| ==> ShippedReplay(runs[i], i, track, numLaps, rand, k0)
    {
      var telemetry;
      telemetry, k := ShippedRealTelemetry(di, track, numLaps, rand, k0, k);
      ShippedReplayAppended(runs, telemetry, track, numLaps, rand, k0);
      DriverStored(raceData, drivers, di, runs, telemetry);
      raceData := raceData[drivers[di] := telemetry];
      runs := runs + [telemetry];
    }
    assert drivers[..|drivers|] == drivers;
    ShippedReplaysStored(raceData, drivers, runs, track, numLaps, rand, k0);
  }

  /** Appending the next profile's replay keeps every replay the shipped one. */
  lemma ShippedReplayAppended(runs: seq<seq<TelemetryPoint>>, tel: seq<TelemetryPoint>, track: TrackData,
                              numLaps: int, rand: nat -> real, k0: nat)
    requires |runs| < |DriverProfiles|
    requires forall i :: 0 <= i < |runs| ==> ShippedReplay(runs[i], i, track, numLaps, rand, k0)
    requires ShippedReplay(tel, |runs|, track, numLaps, rand, k0)
    ensures forall i :: 0 <= i < |runs + [tel]| ==> ShippedReplay((runs + [tel])[i], i, track, numLaps, rand, k0)
  {
    forall i | 0 <= i < |runs + [tel]|
      ensures ShippedReplay((runs + [tel])[i], i, track, numLaps, rand, k0)
    {
      if i < |runs| {
        assert (runs + [tel])[i] == runs[i];
      }
    }
  }

  /** Race data holding the shipped replays under the drivers' ids gives
      each driver its shipped replay. */
  lemma ShippedReplaysStored(raceData: map<string, seq<TelemetryPoint>>, drivers: seq<string>,
                             runs: seq<seq<TelemetryPoint>>, track: TrackData, numLaps: int, rand: nat -> real, k0: nat)
    requires |runs| <= |DriverProfiles|
    requires Stored(raceData, drivers, runs)
    requires forall i :: 0 <= i < |runs| ==> ShippedReplay(runs[i], i, track, numLaps, rand, k0)
    ensures forall i :: 0 <= i < |drivers| ==> ShippedReplay(raceData[drivers[i]], i, track, numLaps, rand, k0)
  {
    StoredEach(raceData, drivers, runs,
               (tel: seq<TelemetryPoint>, i: nat) => i < |DriverProfiles| && ShippedReplay(tel, i, track, numLaps, rand, k0));
  }

  /** `generate_race_with_real_track`: telemetry for the first `numDrivers`
      profiles, driver `i` replaying the track from the draws where driver
      `i - 1` stopped. A track without points makes the per-point time a
      division by zero as soon as one driver drives one lap, after the
      first lap time has been drawn; that error is returned. */
  method GenerateRaceWithRealTrack(track: TrackData, numLaps: int, numDrivers: int, rand: nat -> real, k0: nat)
    returns (result: Result<Generated, string>, k: nat)
    ensures result.Failure? <==> |track.points| == 0 && numLaps >= 1 && |FirstDrivers(numDrivers)| > 0
    ensures result.Failure? ==> k == k0 + 1
    ensures result.Success? ==> result.value.drivers == FirstDrivers(numDrivers)
    ensures result.Success? ==> result.value.raceData.Keys == set d | d in result.value.drivers
    ensures result.Success? ==> forall i :: 0 <= i < |result.value.drivers| ==>
      ShippedReplay(result.value.raceData[result.value.drivers[i]], i, track, numLaps, rand, k0)
    ensures result.Success? ==> k == RealDrawsBefore(|result.value.drivers|, |track.points|, numLaps, rand, k0)
  {
    var drivers := FirstDrivers(numDrivers);
    if |track.points| == 0 && numLaps >= 1 && |drivers| > 0 {
      return Failure("division by zero"), k0 + 1;
    }
    var raceData;
    raceData, k := ReplayDrivers(track, numLaps, numDrivers, rand, k0);
    result := Success(Generated(raceData, drivers));
  }
}
