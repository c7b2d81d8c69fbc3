/** The per-tick physics of the live simulation: tires that wear and heat
    up, AI drivers that turn a target speed into pedal and steering
    commands, and vehicles that move along the track polyline, wrap laps
    and locate the segment they are on. `math.atan2` is a function
    parameter and `random.random()` is the draw stream of `PyRandom`. */
module Physics {
  import opened Wrappers
  import opened Track
  import opened PyRandom
  import opened RealArith

  /** `math.pi` and `2 * math.pi`. */
  const Pi: real := 3.141592653589793
  const TwoPi: real := 6.283185307179586

  /** Fixed vehicle constants (kg, N, and the drag and downforce coefficients). */
  const Mass: real := 798.0
  const MaxEngineForce: real := 8000.0
  const MaxBrakeForce: real := 15000.0
  const DragCoefficient: real := 0.7
  const DownforceCoefficient: real := 3.5

  function Min(a: real, b: real): real { if b < a then b else a }
  function Max(a: real, b: real): real { if b > a then b else a }

  /** `max(-1.0, min(1.0, x))`. */
  function Clamp(x: real): (r: real)
    ensures -1.0 <= r <= 1.0
    ensures -1.0 <= x <= 1.0 ==> r == x
  {
    Max(-1.0, Min(1.0, x))
  }

  lemma SquareNonneg(a: real)
    ensures 0.0 <= a * a
  {
    if a < 0.0 {
      MulNonneg(-a, -a);
    } else {
      MulNonneg(a, a);
    }
  }

  /** A product of a fraction in [0, 1] and a factor in [0, hi] stays in [0, hi]. */
  lemma MulBounded(x: real, y: real, hi: real)
    requires 0.0 <= x <= 1.0 && 0.0 <= y <= hi
    ensures 0.0 <= x * y <= hi
  {
    MulNonneg(x, y);
    MulNonneg(1.0 - x, y);
    assert x * y + (1.0 - x) * y == y;
  }

  /** A factor in [lo, hi] (lo > 0) times a factor in [ylo, 1] lies in
      [lo * ylo, hi]. */
  lemma ProductRange(x: real, lo: real, hi: real, y: real, ylo: real)
    requires 0.0 < lo <= x <= hi && 0.0 < ylo <= y <= 1.0
    ensures lo * ylo <= x * y <= hi
  {
    MulNonneg(x, 1.0 - y);
    MulNonneg(x - lo, y);
    MulNonneg(lo, y - ylo);
  }

  /** The grip formula: base grip, less 40% at full wear, times the
      temperature factor. A new tire at its optimal temperature has exactly
      the base grip. */
  function GripOf(base: real, wear: real, tempFactor: real): (g: real)
    ensures wear == 0.0 && tempFactor == 1.0 ==> g == base
  {
    base * (1.0 - wear * 0.4) * tempFactor
  }

  /** With a positive base, wear at most 1 and a temperature factor in
      [0.7, 1] the grip is positive; with wear in [0, 1] as well it lies
      between 42% and 100% of the base. */
  lemma GripBounds(base: real, wear: real, tempFactor: real)
    ensures base > 0.0 && wear <= 1.0 && 0.7 <= tempFactor <= 1.0 ==> 0.0 < GripOf(base, wear, tempFactor)
    ensures base > 0.0 && 0.0 <= wear <= 1.0 && 0.7 <= tempFactor <= 1.0 ==>
      0.42 * base <= GripOf(base, wear, tempFactor) <= base
  {
    if base > 0.0 && wear <= 1.0 && 0.7 <= tempFactor <= 1.0 {
      var wearFactor := 1.0 - wear * 0.4;
      MulPositive(wearFactor, tempFactor);
      var scale := wearFactor * tempFactor;
      MulPositive(base, scale);
      assert GripOf(base, wear, tempFactor) == base * scale;
      if 0.0 <= wear {
        ProductRange(wearFactor, 0.6, 1.0, tempFactor, 0.7);
        MulNonneg(base, scale - 0.42);
        MulNonneg(base, 1.0 - scale);
      }
    }
  }


  // ---------------------------------------------------------------- Tire

  datatype CompoundSpec = CompoundSpec(baseGrip: real, degradationRate: real, optimalTemp: real)

  /** `Tire.COMPOUNDS`. */
  const Compounds: map<string, CompoundSpec> :=
    map["Soft" := CompoundSpec(1.15, 0.08, 95.0),
        "Medium" := CompoundSpec(1.0, 0.05, 90.0),
        "Hard" := CompoundSpec(0.9, 0.03, 85.0)]

  /** The specs of a compound; a compound missing from the table gets the
      Medium specs. Every spec has positive grip and a non-negative
      degradation rate. */
  function SpecFor(compound: string): (s: CompoundSpec)
    ensures s.baseGrip > 0.0 && s.degradationRate >= 0.0
    ensures s in Compounds.Values
  {
    if compound in Compounds then Compounds[compound] else Compounds["Medium"]
  }

  /** An unknown compound name falls back to the Medium specs, and the
      three named compounds keep their own. */
  lemma CompoundFallback(compound: string)
    ensures compound !in {"Soft", "Medium", "Hard"} ==> SpecFor(compound) == CompoundSpec(1.0, 0.05, 90.0)
    ensures compound == "Soft" ==> SpecFor(compound) == CompoundSpec(1.15, 0.08, 95.0)
    ensures compound == "Hard" ==> SpecFor(compound) == CompoundSpec(0.9, 0.03, 85.0)
  {
  }

  class Tire {
    /** The compound name as given, even when it is not in the table. */
    const compound: string
    /** `base_grip_multiplier`: the simulation scales it for wet weather. */
    var baseGrip: real
    const degradationRate: real
    const optimalTemp: real
    var currentTemp: real
    /** 0.0 (new) to 1.0 (worn out). */
    var currentWear: real

    /** Grip stays positive and wear never passes 1.0. */
    predicate Valid()
      reads this
    {
      baseGrip > 0.0 && degradationRate >= 0.0 && currentWear <= 1.0
    }

    constructor (compound: string)
      ensures this.compound == compound
      ensures baseGrip == SpecFor(compound).baseGrip
      ensures degradationRate == SpecFor(compound).degradationRate
      ensures optimalTemp == SpecFor(compound).optimalTemp
      ensures currentTemp == 70.0 && currentWear == 0.0
      ensures Valid()
    {
      this.compound := compound;
      var specs := SpecFor(compound);
      baseGrip := specs.baseGrip;
      degradationRate := specs.degradationRate;
      optimalTemp := specs.optimalTemp;
      currentTemp := 70.0;
      currentWear := 0.0;
    }

    /** The temperature factor of grip: 1.0 at the optimal temperature,
        falling by 1/50 per degree away from it, but never below 0.7. */
    function TempFactor(): (f: real)
      reads this
      ensures 0.7 <= f <= 1.0
      ensures currentTemp == optimalTemp ==> f == 1.0
      ensures Abs(currentTemp - optimalTemp) <= 15.0 ==> f == 1.0 - Abs(currentTemp - optimalTemp) / 50.0
    {
      Max(0.7, 1.0 - Abs(currentTemp - optimalTemp) / 50.0)
    }

    /** `get_current_grip`: the grip formula at the tire's wear and
        temperature factor. A valid tire always has positive grip, and
        between 42% and 100% of its base grip once wear is non-negative. */
    function GetCurrentGrip(): (g: real)
      reads this
      ensures Valid() ==> 0.0 < g
      ensures Valid() && 0.0 <= currentWear ==> 0.42 * baseGrip <= g <= baseGrip
      ensures currentWear == 0.0 && currentTemp == optimalTemp ==> g == baseGrip
    {
      GripBounds(baseGrip, currentWear, TempFactor());
      GripOf(baseGrip, currentWear, TempFactor())
    }

    /** `update_wear`: wear grows with distance and sliding and is capped at
        1.0; with non-negative inputs it never decreases. */
    method UpdateWear(distanceKm: real, slidingFactor: real)
      modifies this
      ensures currentWear == Min(1.0, old(currentWear) + distanceKm * degradationRate * 0.001 + slidingFactor * 0.002)
      ensures currentWear <= 1.0
      ensures old(Valid()) && distanceKm >= 0.0 && slidingFactor >= 0.0 ==> old(currentWear) <= currentWear
      ensures old(Valid()) ==> Valid()
      ensures baseGrip == old(baseGrip) && currentTemp == old(currentTemp)
    {
      var baseWear := distanceKm * degradationRate * 0.001;
      var slidingWear := slidingFactor * 0.002;
      if distanceKm >= 0.0 && degradationRate >= 0.0 {
        MulNonneg(distanceKm, degradationRate);
      }
      currentWear := Min(1.0, currentWear + baseWear + slidingWear);
    }

    /** The temperature the tire heats toward at a speed and lateral force. */
    function TargetTemp(speed: real, lateralForce: real): real
      reads this
    {
      optimalTemp + speed * 0.1 + lateralForce * 5.0
    }

    /** `update_temperature`: the temperature moves 5% of the way toward the
        target, so it ends between the old temperature and the target and
        the remaining gap shrinks to 95%. */
    method UpdateTemperature(speed: real, lateralForce: real)
      modifies this
      ensures currentTemp == old(currentTemp) + (TargetTemp(speed, lateralForce) - old(currentTemp)) * 0.05
      ensures Min(old(currentTemp), TargetTemp(speed, lateralForce)) <= currentTemp <= Max(old(currentTemp), TargetTemp(speed, lateralForce))
      ensures Abs(TargetTemp(speed, lateralForce) - currentTemp) == 0.95 * Abs(TargetTemp(speed, lateralForce) - old(currentTemp))
      ensures baseGrip == old(baseGrip) && currentWear == old(currentWear)
    {
      var target := TargetTemp(speed, lateralForce);
      currentTemp := currentTemp + (target - currentTemp) * 0.05;
    }
  }

  // -------------------------------------------------------------- Driver

  datatype Driver = Driver(name: string, aggression: real, tireManagement: real, consistency: real)

  /** A driver profile dictionary; every key may be missing. */
  datatype DriverProfile = DriverProfile(name: Option<string>, aggression: Option<real>,
                                         tireManagement: Option<real>, consistency: Option<real>)

  /** `Driver.__init__`: each missing key takes its default. */
  function NewDriver(profile: DriverProfile): (d: Driver)
    ensures profile == DriverProfile(None, None, None, None) ==> d == Driver("Unknown", 0.8, 0.7, 0.9)
    ensures profile.name.Some? ==> d.name == profile.name.value
    ensures profile.consistency.Some? ==> d.consistency == profile.consistency.value
  {
    Driver(profile.name.GetOr("Unknown"), profile.aggression.GetOr(0.8),
           profile.tireManagement.GetOr(0.7), profile.consistency.GetOr(0.9))
  }

  datatype Commands = Commands(throttle: real, brake: real, steer: real)

  /** How far the vehicle is below the aggression-scaled target speed. */
  function SpeedDiff(driver: Driver, targetSpeed: real, vel: real): real
  {
    targetSpeed * (0.95 + driver.aggression * 0.1) - vel
  }

  /** The raw (throttle, brake) pair: throttle when more than 5 m/s below
      target, brake when more than 5 m/s above it, a 0.3 throttle
      otherwise. Never both at once; both in [0, 1] for an aggression of
      at most 6. */
  function Pedals(driver: Driver, speedDiff: real): (p: (real, real))
    ensures p.0 == 0.0 || p.1 == 0.0
    ensures speedDiff >= -5.0 ==> p.1 == 0.0
    ensures speedDiff < -5.0 ==> p.0 == 0.0
    ensures 0.0 <= p.0 <= 1.0
    ensures driver.aggression <= 6.0 ==> 0.0 <= p.1 <= 1.0
    ensures -5.0 <= speedDiff <= 5.0 ==> p == (0.3, 0.0)
  {
    if speedDiff > 5.0 then
      (Min(1.0, speedDiff / 50.0), 0.0)
    else if speedDiff < -5.0 then
      var b := Abs(speedDiff) / 80.0;
      (0.0, Min(1.0, b * (1.2 - driver.aggression * 0.2)))
    else
      (0.3, 0.0)
  }

  /** The heading error reduced to [-pi, pi] by whole turns, as the two
      `while` loops of `_calculate_steering` do; an error already in range
      is left alone. */
  method NormalizeHeading(error0: real) returns (error: real, ghost turns: int)
    ensures -Pi <= error <= Pi
    ensures error == error0 + TwoPi * (turns as real)
    ensures -Pi <= error0 <= Pi ==> error == error0
  {
    error, turns := error0, 0;
    while error > Pi
      invariant error == error0 + TwoPi * (turns as real)
      invariant error0 <= Pi ==> turns == 0
      decreases error.Floor
    {
      error := error - TwoPi;
      turns := turns - 1;
    }
    while error < -Pi
      invariant error <= Pi
      invariant error == error0 + TwoPi * (turns as real)
      invariant -Pi <= error0 <= Pi ==> turns == 0
      decreases (-error).Floor
    {
      error := error + TwoPi;
      turns := turns + 1;
    }
  }

  /** The heading toward the point five ahead (wrapping past the end). */
  function DesiredHeading(trackIndex: nat, track: seq<TrackPoint>, atan2: (real, real) -> real): real
    requires trackIndex < |track|
  {
    var target := track[(trackIndex + 5) % |track|];
    var current := track[trackIndex];
    atan2(target.y - current.y, target.x - current.x)
  }

  /** `_calculate_steering`: zero on a track of fewer than two points;
      otherwise twice the normalised heading error, clamped to [-1, 1]. */
  method CalculateSteering(trackIndex: nat, heading: real, track: seq<TrackPoint>, atan2: (real, real) -> real)
    returns (steer: real)
    requires |track| < 2 || trackIndex < |track|
    ensures -1.0 <= steer <= 1.0
    ensures |track| < 2 ==> steer == 0.0
    ensures |track| >= 2 && -Pi <= DesiredHeading(trackIndex, track, atan2) - heading <= Pi ==>
              steer == Clamp((DesiredHeading(trackIndex, track, atan2) - heading) * 2.0)
  {
    if |track| < 2 {
      return 0.0;
    }
    var headingError := DesiredHeading(trackIndex, track, atan2) - heading;
    var normalised, _ := NormalizeHeading(headingError);
    steer := Clamp(normalised * 2.0);
  }

  /** `get_commands`: pedals from the speed difference, smoothed by tire
      management, varied by two uniform draws in [0.9, 1.1) when the first
      draw exceeds the driver's consistency, plus steering. Throttle and
      brake are never applied together. */
  method GetCommands(driver: Driver, vel: real, trackIndex: nat, heading: real, track: seq<TrackPoint>,
                     targetSpeed: real, atan2: (real, real) -> real, rand: nat -> real, k0: nat)
    returns (c: Commands, k: nat)
    requires |track| < 2 || trackIndex < |track|
    ensures k == k0 + (if rand(k0) > driver.consistency then 3 else 1)
    ensures c.throttle == 0.0 || c.brake == 0.0
    ensures SpeedDiff(driver, targetSpeed, vel) >= -5.0 ==> c.brake == 0.0
    ensures SpeedDiff(driver, targetSpeed, vel) < -5.0 ==> c.throttle == 0.0
    ensures UnitDraws(rand) && 0.0 <= driver.tireManagement <= 1.0 && driver.aggression <= 6.0 ==>
              0.0 <= c.throttle <= 1.1 && 0.0 <= c.brake <= 1.1
    ensures -1.0 <= c.steer <= 1.0
  {
    var pedals := Pedals(driver, SpeedDiff(driver, targetSpeed, vel));
    var smoothing := 0.7 + driver.tireManagement * 0.3;
    var throttle := pedals.0 * smoothing;
    var brake := pedals.1 * smoothing;
    k := k0 + 1;
    var varied := rand(k0) > driver.consistency;
    if varied {
      throttle := throttle * Uniform(0.9, 1.1, rand(k));
      brake := brake * Uniform(0.9, 1.1, rand(k + 1));
      k := k + 2;
    }
    if UnitDraws(rand) && 0.0 <= driver.tireManagement <= 1.0 && driver.aggression <= 6.0 {
      PedalBounded(pedals.0, smoothing, varied, rand(k0 + 1), throttle);
      PedalBounded(pedals.1, smoothing, varied, rand(k0 + 2), brake);
    }
    var steer := CalculateSteering(trackIndex, heading, track, atan2);
    c := Commands(throttle, brake, steer);
  }

  /** A pedal in [0, 1], smoothed by a factor in [0.7, 1] and possibly
      varied by a draw in [0.9, 1.1), stays in [0, 1.1]. */
  lemma PedalBounded(pedal: real, smoothing: real, varied: bool, u: real, applied: real)
    requires 0.0 <= pedal <= 1.0 && 0.7 <= smoothing <= 1.0 && 0.0 <= u < 1.0
    requires applied == if varied then pedal * smoothing * Uniform(0.9, 1.1, u) else pedal * smoothing
    ensures 0.0 <= applied <= 1.1
  {
    MulBounded(pedal, smoothing, 1.0);
    if varied {
      UniformRange(0.9, 1.1, u);
      MulBounded(pedal * smoothing, Uniform(0.9, 1.1, u), 1.1);
    }
  }

  /** The consistency variation can push a pedal past 1.0: at full throttle
      and full tire management, a variation draw of 0.99 scales the throttle
      to 1.098. */
  lemma ThrottleCanExceedOne()
    ensures var d := Driver("", 1.0, 1.0, 0.5);
      Pedals(d, 100.0).0 * (0.7 + d.tireManagement * 0.3) * Uniform(0.9, 1.1, 0.99) == 1.098
  {
  }

  // ------------------------------------------------------- Target speed

  /** The corner factor for a change of direction: none up to 0.2 rad,
      `1 - 0.8a` (never below 0.6) up to 0.5 rad, and `1 - 1.5a` (never
      below 0.3) beyond. */
  function CornerFactor(angleChange: real): (f: real)
    ensures 0.3 <= f <= 1.0
    ensures angleChange <= 0.2 ==> f == 1.0
  {
    if angleChange > 0.5 then Max(0.3, 1.0 - angleChange * 1.5)
    else if angleChange > 0.2 then Max(0.6, 1.0 - angleChange * 0.8)
    else 1.0
  }

  /** A sharper corner never gets a larger factor. */
  lemma CornerFactorMonotone(a: real, b: real)
    requires a <= b
    ensures CornerFactor(b) <= CornerFactor(a)
  {
  }

  /** Beyond 0.5 rad the floor always wins: `1 - 1.5a` is already below
      0.3 there, so every sharp corner gets exactly 0.3; between 0.2 and
      0.5 rad the floor of 0.6 never applies. */
  lemma CornerFactorRegimes(a: real)
    ensures a > 0.5 ==> CornerFactor(a) == 0.3
    ensures 0.2 < a <= 0.5 ==> CornerFactor(a) == 1.0 - a * 0.8 && 0.6 <= CornerFactor(a) < 0.84
  {
  }

  /** `_get_target_speed`: 80 m/s with no track; otherwise 90 m/s scaled by
      the corner factor of the direction change over the next 20 points,
      when there are more than 20 points ahead. */
  function GetTargetSpeed(trackIndex: nat, track: seq<TrackPoint>, atan2: (real, real) -> real): (r: real)
    ensures |track| == 0 ==> r == 80.0
    ensures |track| > 0 ==> 27.0 <= r <= 90.0
    ensures |track| > 0 && trackIndex + 20 >= |track| ==> r == 90.0
  {
    if |track| == 0 then 80.0
    else
      var baseSpeed := 90.0;
      if trackIndex + 20 < |track| then
        var nextPoints := track[trackIndex..trackIndex + 20];
        if |nextPoints| >= 3 then
          var p1, p2, p3 := nextPoints[0], nextPoints[|nextPoints| / 2], nextPoints[|nextPoints| - 1];
          var angle1 := atan2(p2.y - p1.y, p2.x - p1.x);
          var angle2 := atan2(p3.y - p2.y, p3.x - p2.x);
          var change := Abs(angle2 - angle1);
          var angleChange := if change > Pi then 2.0 * Pi - change else change;
          baseSpeed * CornerFactor(angleChange)
        else
          baseSpeed
      else
        baseSpeed
  }

  // -------------------------------------------------- Lap and segment

  /** The distance covered in `dt` seconds at `speed`. */
  function Travel(speed: real, dt: real): real
  {
    speed * dt
  }

  /** The distance along the lap and the lap number after moving to
      `moved`: crossing the total length subtracts it once and adds a lap. */
  function Wrap(moved: real, total: real, lap: int): (r: (real, int))
    ensures r.1 == lap + 1 <==> moved >= total
    ensures r.1 == lap || r.1 == lap + 1
  {
    if moved >= total then (moved - total, lap + 1) else (moved, lap)
  }

  /** A move shorter than two laps lands within [0, total) of the new lap,
      and the race distance `(lap - 1) * total + distance` is unchanged by
      the wrap. */
  lemma WrapKeepsRaceDistance(moved: real, total: real, lap: int)
    ensures var r := Wrap(moved, total, lap);
      ((r.1 - 1) as real) * total + r.0 == ((lap - 1) as real) * total + moved
    ensures 0.0 <= moved < 2.0 * total ==> 0.0 <= Wrap(moved, total, lap).0 < total
  {
    var r := Wrap(moved, total, lap);
    if moved >= total {
      assert ((r.1 - 1) as real) * total == ((lap - 1) as real) * total + total;
    }
  }

  /** The first point whose cumulative distance reaches `d`, or `|points|`
      when none does. */
  function FirstReaching(points: seq<TrackPoint>, d: real): (i: nat)
    ensures i <= |points|
    ensures forall j :: 0 <= j < i ==> points[j].distance < d
    ensures i < |points| ==> points[i].distance >= d
    decreases |points|
  {
    if |points| == 0 then 0
    else if points[0].distance >= d then 0
    else 1 + FirstReaching(points[1..], d)
  }

  /** Every position up to the last point's distance, in particular every
      position reached after a wrap from a move shorter than two laps, lies
      on a segment the search finds. */
  lemma {:induction false} WrappedPositionIsLocated(track: seq<TrackPoint>, moved: real, lap: int)
    requires |track| > 0 && moved < 2.0 * track[|track| - 1].distance
    ensures FirstReaching(track, Wrap(moved, track[|track| - 1].distance, lap).0) < |track|
  {
    var total := track[|track| - 1].distance;
    assert Wrap(moved, total, lap).0 <= total;
  }

  /** The located segment is the one just after the last point behind `d`
      when the distances are in order. */
  lemma SegmentBracketsPosition(track: seq<TrackPoint>, d: real)
    requires forall i, j :: 0 <= i <= j < |track| ==> track[i].distance <= track[j].distance
    requires 0 < FirstReaching(track, d) < |track|
    ensures var i := FirstReaching(track, d);
      track[i - 1].distance < d <= track[i].distance
  {
  }

  /** The heading toward the next point, used when a segment is found
      before the last point. */
  function SegmentHeading(track: seq<TrackPoint>, i: nat, atan2: (real, real) -> real): real
    requires i + 1 < |track|
  {
    atan2(track[i + 1].y - track[i].y, track[i + 1].x - track[i].x)
  }

  /** Engine force less brake force less aerodynamic drag. */
  function NetForce(c: Commands, vel: real): real
  {
    c.throttle * MaxEngineForce - c.brake * MaxBrakeForce - 0.5 * DragCoefficient * (vel * vel)
  }

  /** Mechanical grip plus aerodynamic downforce: positive whenever the
      tire grip is, at any speed. */
  function GripBudget(grip: real, vel: real): (b: real)
    ensures grip > 0.0 ==> b > 0.0
  {
    SquareNonneg(vel);
    grip * 9.81 * Mass + DownforceCoefficient * (vel * vel)
  }

  /** How far the requested lateral force exceeds 70% of the grip budget,
      relative to the budget; positive whenever the car slides. */
  function SlidingFactor(requested: real, budget: real): (f: real)
    requires budget > 0.0 && requested > budget * 0.7
    ensures f > 0.0
  {
    (requested - budget * 0.7) / budget
  }

  /** Kilometres covered in `dt` seconds at `vel` m/s; never negative for
      a non-negative speed and step. */
  function DistanceKm(vel: real, dt: real): (d: real)
    ensures vel >= 0.0 && dt >= 0.0 ==> d >= 0.0
  {
    vel * dt / 1000.0
  }

  /** The heading change per second while moving faster than 1 m/s. */
  function TurnRate(steer: real, lateralForce: real, vel: real): real
    requires vel > 1.0
  {
    MulPositive(Mass, vel);
    steer * 0.5 * (lateralForce / (Mass * vel))
  }

  datatype VehicleTelemetry = VehicleTelemetry(
    name: string, position: (real, real), speedKph: real, speedMs: real, lap: int,
    distance: real, tireCompound: string, tireWear: real, tireTemp: real,
    status: string, heading: real)

  // ------------------------------------------------------------- Vehicle

  class Vehicle {
    const driver: Driver
    var tire: Tire
    var pos: (real, real)
    /** Speed in m/s. */
    var vel: real
    var accel: real
    /** Radians. */
    var heading: real
    var trackIndex: nat
    var distanceOnTrack: real
    var currentLap: int
    var status: string

    ghost predicate Valid()
      reads this, tire
    {
      tire.Valid()
    }

    constructor (driver: Driver, tire: Tire, startPosition: nat)
      requires tire.Valid()
      ensures this.driver == driver && this.tire == tire
      ensures pos == (0.0, 0.0) && vel == 0.0 && accel == 0.0 && heading == 0.0
      ensures trackIndex == startPosition && distanceOnTrack == 0.0 && currentLap == 1
      ensures status == "Racing"
      ensures Valid()
    {
      this.driver := driver;
      this.tire := tire;
      pos := (0.0, 0.0);
      vel := 0.0;
      accel := 0.0;
      heading := 0.0;
      trackIndex := startPosition;
      distanceOnTrack := 0.0;
      currentLap := 1;
      status := "Racing";
    }

    /** The force, grip, sliding, tire and heading part of `update`: speed
        stays non-negative, the tire stays valid, and for a non-negative
        time step the tire never loses wear. The lap and segment state is
        not touched. */
    method Drive(dt: real, track: seq<TrackPoint>, atan2: (real, real) -> real, rand: nat -> real, k0: nat)
      returns (k: nat)
      requires Valid() && 0 < |track| && trackIndex < |track|
      modifies this, tire
      ensures Valid() && tire == old(tire) && tire.baseGrip == old(tire.baseGrip)
      ensures vel >= 0.0
      ensures dt >= 0.0 ==> old(tire.currentWear) <= tire.currentWear
      ensures pos == old(pos) && trackIndex == old(trackIndex) && distanceOnTrack == old(distanceOnTrack)
      ensures currentLap == old(currentLap) && status == old(status)
      ensures k == k0 + (if rand(k0) > driver.consistency then 3 else 1)
    {
      var targetSpeed := GetTargetSpeed(trackIndex, track, atan2);
      var commands;
      commands, k := GetCommands(driver, vel, trackIndex, heading, track, targetSpeed, atan2, rand, k0);

      accel := NetForce(commands, vel) / Mass;
      vel := Max(0.0, vel + accel * dt);

      var gripBudget := GripBudget(tire.GetCurrentGrip(), vel);
      var lateralForceRequested := Abs(commands.steer) * vel * 500.0;
      var lateralForce := Min(lateralForceRequested, gripBudget * 0.7);

      var slidingFactor := 0.0;
      if lateralForceRequested > gripBudget * 0.7 {
        slidingFactor := SlidingFactor(lateralForceRequested, gripBudget);
        vel := vel * 0.98;
      }

      tire.UpdateWear(DistanceKm(vel, dt), slidingFactor);
      tire.UpdateTemperature(vel, lateralForce / 1000.0);

      if vel > 1.0 {
        heading := heading + TurnRate(commands.steer, lateralForce, vel) * dt;
      }
    }

    /** The position part of `update`: move by `vel * dt`, wrap the lap at
        the last point's distance, then point `trackIndex`, `pos` and (before
        the last point) `heading` at the first point reaching the new
        distance; when no point reaches it they keep their values. */
    method Advance(dt: real, track: seq<TrackPoint>, atan2: (real, real) -> real)
      requires 0 < |track|
      modifies this
      ensures tire == old(tire) && vel == old(vel) && accel == old(accel) && status == old(status)
      ensures (distanceOnTrack, currentLap) == Wrap(old(distanceOnTrack) + Travel(old(vel), dt), track[|track| - 1].distance, old(currentLap))
      ensures var i := FirstReaching(track, distanceOnTrack);
        if i < |track| then
          trackIndex == i && pos == (track[i].x, track[i].y) &&
          heading == (if i + 1 < |track| then SegmentHeading(track, i, atan2) else old(heading))
        else
          trackIndex == old(trackIndex) && pos == old(pos) && heading == old(heading)
    {
      var distanceMoved := Travel(vel, dt);
      distanceOnTrack := distanceOnTrack + distanceMoved;

      var totalTrackLength := track[|track| - 1].distance;
      if distanceOnTrack >= totalTrackLength {
        distanceOnTrack := distanceOnTrack - totalTrackLength;
        currentLap := currentLap + 1;
      }

      ghost var wrapped, lap := distanceOnTrack, currentLap;
      for i := 0 to |track|
        invariant distanceOnTrack == wrapped && currentLap == lap
        invariant tire == old(tire) && vel == old(vel) && accel == old(accel) && status == old(status)
        invariant forall j :: 0 <= j < i ==> track[j].distance < distanceOnTrack
        invariant trackIndex == old(trackIndex) && pos == old(pos) && heading == old(heading)
      {
        if track[i].distance >= distanceOnTrack {
          trackIndex := i;
          pos := (track[i].x, track[i].y);
          if i < |track| - 1 {
            heading := SegmentHeading(track, i, atan2);
          }
          return;
        }
      }
    }

    /** `update`: nothing happens unless the vehicle is racing on a
        non-empty track. Otherwise the vehicle drives, moves by its new
        speed times `dt`, wraps the lap at most once and locates its
        segment; it stays on a valid segment index. */
    method Update(dt: real, track: seq<TrackPoint>, atan2: (real, real) -> real, rand: nat -> real, k0: nat)
      returns (k: nat)
      requires Valid() && (|track| == 0 || trackIndex < |track|)
      modifies this, tire
      ensures Valid() && tire == old(tire) && tire.baseGrip == old(tire.baseGrip) && status == old(status)
      ensures |track| == 0 || trackIndex < |track|
      ensures old(status) != "Racing" || |track| == 0 ==>
                k == k0 && unchanged(this) && unchanged(tire)
      ensures old(status) == "Racing" && |track| > 0 ==>
                vel >= 0.0 &&
                (distanceOnTrack, currentLap) == Wrap(old(distanceOnTrack) + Travel(vel, dt), track[|track| - 1].distance, old(currentLap)) &&
                k == k0 + (if rand(k0) > driver.consistency then 3 else 1)
      ensures old(status) == "Racing" && |track| > 0 ==>
                var i := FirstReaching(track, distanceOnTrack);
                if i < |track| then
                  trackIndex == i && pos == (track[i].x, track[i].y) &&
                  (i + 1 < |track| ==> heading == SegmentHeading(track, i, atan2))
                else
                  trackIndex == old(trackIndex) && pos == old(pos)
      ensures old(status) == "Racing" && |track| > 0 && dt >= 0.0 ==> old(tire.currentWear) <= tire.currentWear
    {
      if status != "Racing" || |track| == 0 {
        return k0;
      }
      k := Drive(dt, track, atan2, rand, k0);
      Advance(dt, track, atan2);
    }

    /** `get_telemetry`, without the rounding: speed in both units, wear as
        a percentage. */
    function GetTelemetry(): (t: VehicleTelemetry)
      reads this, tire
      ensures t.speedKph == 3.6 * t.speedMs && t.speedMs == vel
      ensures t.tireWear == 100.0 * tire.currentWear
      ensures Valid() ==> t.tireWear <= 100.0
      ensures t.lap == currentLap && t.distance == distanceOnTrack && t.position == pos
    {
      VehicleTelemetry(driver.name, pos, vel * 3.6, vel, currentLap, distanceOnTrack,
                       tire.compound, tire.currentWear * 100.0, tire.currentTemp, status, heading)
    }
  }
}
