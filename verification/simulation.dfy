/** The live simulation controller: the configured track, weather and
    chaos level, the vehicles it ticks in order, and the simulation clock. */
module Simulation {
  import opened Wrappers
  import opened Track
  import opened Physics

  /** One agent entry of the configure parameters; both keys may be missing. */
  datatype AgentConfig = AgentConfig(driverProfile: Option<DriverProfile>, tireCompound: Option<string>)

  /** The configure parameters; every key may be missing. */
  datatype ConfigureParams = ConfigureParams(
    track: Option<string>, trackData: Option<seq<TrackPoint>>, weather: Option<string>,
    chaosLevel: Option<real>, agents: Option<seq<AgentConfig>>)

  datatype StateSnapshot = StateSnapshot(
    time: real, track: string, weather: string, chaosLevel: real, vehicles: seq<VehicleTelemetry>)

  /** Metres between staggered starting cars. */
  const SpacingDistance: real := 100.0

  function Digit(d: nat): char
    requires d < 10
  {
    "0123456789"[d]
  }

  /** Python's `str` of a non-negative integer: its decimal digits, most
      significant first, with no leading zero. */
  function NatToString(n: nat): (s: string)
    ensures 0 < |s|
    ensures forall i :: 0 <= i < |s| ==> '0' <= s[i] <= '9'
    ensures |s| > 1 ==> s[0] != '0'
    decreases n
  {
    if n < 10 then [Digit(n)] else NatToString(n / 10) + [Digit(n % 10)]
  }

  /** The profile a configure agent without `driver_profile` gets:
      "Driver <i+1>" with aggression 0.8, tire management 0.7 and
      consistency 0.9. */
  function DefaultProfile(i: nat): DriverProfile
  {
    DriverProfile(Some("Driver " + NatToString(i + 1)), Some(0.8), Some(0.7), Some(0.9))
  }

  /** The driver of agent `i`. */
  function AgentDriver(agent: AgentConfig, i: nat): (d: Driver)
    ensures agent.driverProfile.None? ==>
              d.aggression == 0.8 && d.tireManagement == 0.7 && d.consistency == 0.9 &&
              d.name == "Driver " + NatToString(i + 1)
  {
    NewDriver(agent.driverProfile.GetOr(DefaultProfile(i)))
  }

  /** The start index for a car placed `d` metres along the track: the
      first point reaching `d`, or 0 when there is none (or no track). */
  function StartIndex(trackData: seq<TrackPoint>, d: real): (r: nat)
    ensures |trackData| == 0 ==> r == 0
    ensures |trackData| > 0 ==> r < |trackData|
    ensures FirstReaching(trackData, d) < |trackData| ==> r == FirstReaching(trackData, d)
    ensures (forall j :: 0 <= j < |trackData| ==> trackData[j].distance < d) ==> r == 0
  {
    var i := FirstReaching(trackData, d);
    if i < |trackData| then i else 0
  }

  /** Base grip of a fresh tire of `compound` under `weather`: 70% of the
      compound's grip when wet. */
  function WeatherGrip(compound: string, weather: string): (g: real)
    ensures g > 0.0
    ensures weather != "Wet" ==> g == SpecFor(compound).baseGrip
  {
    if weather == "Wet" then SpecFor(compound).baseGrip * 0.7 else SpecFor(compound).baseGrip
  }

  /** A tire as `Tire(compound)` builds it, with the weather's grip. */
  ghost predicate FreshTire(t: Tire, compound: string, weather: string)
    reads t
  {
    t.compound == compound && t.baseGrip == WeatherGrip(compound, weather) &&
    t.degradationRate == SpecFor(compound).degradationRate && t.optimalTemp == SpecFor(compound).optimalTemp &&
    t.currentTemp == 70.0 && t.currentWear == 0.0
  }

  /** Vehicle `i` as `configure` leaves it: its driver and tire, staggered
      `i * 100` m along the track at the first point reaching that
      distance, and its initial speed `55 + 5u` for the draw `u`. */
  ghost predicate Configured(v: Vehicle, i: nat, agent: AgentConfig, trackData: seq<TrackPoint>, weather: string, u: real)
    reads v, v.tire
  {
    var start := StartIndex(trackData, (i as real) * SpacingDistance);
    v.driver == AgentDriver(agent, i) &&
    FreshTire(v.tire, agent.tireCompound.GetOr("Medium"), weather) &&
    v.trackIndex == start &&
    v.distanceOnTrack == (i as real) * SpacingDistance &&
    v.pos == (if |trackData| > 0 then (trackData[start].x, trackData[start].y) else (0.0, 0.0)) &&
    v.vel == 55.0 + u * 5.0 &&
    v.accel == 0.0 && v.heading == 0.0 && v.currentLap == 1 && v.status == "Racing"
  }

  /** One iteration of the `configure` loop: build the driver, the tire
      (scaled for wet weather), the vehicle at its staggered start, and
      draw its initial speed. */
  method ConfigureVehicle(i: nat, agent: AgentConfig, trackData: seq<TrackPoint>, weather: string, u: real)
    returns (vehicle: Vehicle)
    ensures fresh(vehicle) && fresh(vehicle.tire)
    ensures Configured(vehicle, i, agent, trackData, weather, u)
    ensures vehicle.Valid() && (|trackData| == 0 || vehicle.trackIndex < |trackData|)
  {
    var driver := NewDriver(agent.driverProfile.GetOr(DefaultProfile(i)));
    var tire := new Tire(agent.tireCompound.GetOr("Medium"));
    if weather == "Wet" {
      tire.baseGrip := tire.baseGrip * 0.7;
    }

    var startPosition := 0;
    if |trackData| > 0 {
      var startDistance := (i as real) * SpacingDistance;
      for idx := 0 to |trackData|
        invariant startPosition == 0
        invariant forall j :: 0 <= j < idx ==> trackData[j].distance < startDistance
      {
        if trackData[idx].distance >= startDistance {
          startPosition := idx;
          break;
        }
      }
    }
    assert startPosition == StartIndex(trackData, (i as real) * SpacingDistance);

    vehicle := new Vehicle(driver, tire, startPosition);
    vehicle.distanceOnTrack := (i as real) * SpacingDistance;
    if |trackData| > 0 && startPosition < |trackData| {
      vehicle.pos := (trackData[startPosition].x, trackData[startPosition].y);
    }
    vehicle.vel := 55.0 + u * 5.0;
  }

  /** The first `|vs|` agents configured in order, agent `j` from draw `k0 + j`. */
  ghost predicate AllConfigured(vs: seq<Vehicle>, agents: seq<AgentConfig>, trackData: seq<TrackPoint>,
                                weather: string, rand: nat -> real, k0: nat)
    reads vs, TiresOf(vs)
  {
    |vs| <= |agents| &&
    forall j :: 0 <= j < |vs| ==> Configured(vs[j], j, agents[j], trackData, weather, rand(k0 + j))
  }

  lemma ConfiguredAppend(vs: seq<Vehicle>, v: Vehicle, agents: seq<AgentConfig>, trackData: seq<TrackPoint>,
                         weather: string, rand: nat -> real, k0: nat)
    requires AllConfigured(vs, agents, trackData, weather, rand, k0) && |vs| < |agents|
    requires Configured(v, |vs|, agents[|vs|], trackData, weather, rand(k0 + |vs|))
    ensures AllConfigured(vs + [v], agents, trackData, weather, rand, k0)
  {
    var ws := vs + [v];
    forall j | 0 <= j < |ws|
      ensures Configured(ws[j], j, agents[j], trackData, weather, rand(k0 + j))
    {
      if j < |vs| {
        assert ws[j] == vs[j] && vs[j].tire in TiresOf(vs);
      }
    }
  }

  /** Appending a vehicle that shares no object with the fleet keeps it well formed. */
  lemma FleetAppend(vs: seq<Vehicle>, v: Vehicle, trackData: seq<TrackPoint>)
    requires Fleet(vs, trackData)
    requires v !in vs && v.tire !in TiresOf(vs)
    requires v.tire.Valid() && (|trackData| == 0 || v.trackIndex < |trackData|)
    ensures Fleet(vs + [v], trackData)
  {
    var ws := vs + [v];
    forall i, j | 0 <= i < j < |ws|
      ensures ws[i] != ws[j] && ws[i].tire != ws[j].tire
    {
      if j == |vs| {
        assert ws[i] == vs[i] && vs[i].tire in TiresOf(vs);
      }
    }
    forall i | 0 <= i < |ws|
      ensures ws[i].tire.Valid() && (|trackData| == 0 || ws[i].trackIndex < |trackData|)
    {
      if i < |vs| {
        assert ws[i] == vs[i] && vs[i].tire in TiresOf(vs);
      }
    }
  }

  /** Configure agent `|vs|` and append its vehicle to the fleet built so far. */
  method AppendConfigured(vs: seq<Vehicle>, agents: seq<AgentConfig>, trackData: seq<TrackPoint>,
                          weather: string, rand: nat -> real, k0: nat)
    returns (ws: seq<Vehicle>)
    requires |vs| < |agents|
    requires AllConfigured(vs, agents, trackData, weather, rand, k0) && Fleet(vs, trackData)
    ensures |ws| == |vs| + 1 && ws[..|vs|] == vs && fresh(ws[|vs|]) && fresh(ws[|vs|].tire)
    ensures forall j :: 0 <= j < |vs| ==> ws[j].tire == old(vs[j].tire)
    ensures AllConfigured(ws, agents, trackData, weather, rand, k0) && Fleet(ws, trackData)
  {
    var i := |vs|;
    var vehicle := ConfigureVehicle(i, agents[i], trackData, weather, rand(k0 + i));
    ConfiguredAppend(vs, vehicle, agents, trackData, weather, rand, k0);
    FleetAppend(vs, vehicle, trackData);
    ws := vs + [vehicle];
  }

  /** The `configure` loop: one vehicle per agent, in order, agent `i`
      consuming draw `k0 + i`. */
  method ConfigureFleet(agents: seq<AgentConfig>, trackData: seq<TrackPoint>, weather: string,
                        rand: nat -> real, k0: nat)
    returns (vs: seq<Vehicle>)
    ensures |vs| == |agents|
    ensures forall i :: 0 <= i < |vs| ==> fresh(vs[i]) && fresh(vs[i].tire)
    ensures AllConfigured(vs, agents, trackData, weather, rand, k0) && Fleet(vs, trackData)
  {
    vs := [];
    for i := 0 to |agents|
      invariant |vs| == i
      invariant forall j :: 0 <= j < i ==> fresh(vs[j]) && fresh(vs[j].tire)
      invariant AllConfigured(vs, agents, trackData, weather, rand, k0) && Fleet(vs, trackData)
    {
      vs := AppendConfigured(vs, agents, trackData, weather, rand, k0);
    }
  }

  /** One iteration of the `set_weather` loop: vehicle `i` gets a new tire
      of its old compound, with the weather's grip. Only that vehicle's
      `tire` field may change. */
  method RenewTire(vs: seq<Vehicle>, i: nat, trackData: seq<TrackPoint>, weather: string)
    requires i < |vs| && Fleet(vs, trackData)
    modifies {vs[i]}`tire
    ensures Fleet(vs, trackData)
    ensures fresh(vs[i].tire) && FreshTire(vs[i].tire, old(vs[i].tire.compound), weather)
    ensures forall j :: 0 <= j < |vs| && j != i ==> vs[j].tire == old(vs[j].tire)
  {
    var v := vs[i];
    var multiplier := if weather == "Wet" then 0.7 else 1.0;
    var tire := new Tire(v.tire.compound);
    if weather == "Wet" {
      tire.baseGrip := tire.baseGrip * multiplier;
    }
    v.tire := tire;
    forall j, l | 0 <= j < l < |vs|
      ensures vs[j].tire != vs[l].tire
    {
      if j != i && l != i {
        assert vs[j].tire == old(vs[j].tire) && vs[l].tire == old(vs[l].tire);
      }
    }
  }

  /** The `set_weather` loop: every vehicle, in order, gets a new tire; no
      other field of any vehicle changes. */
  method RenewTires(vs: seq<Vehicle>, trackData: seq<TrackPoint>, weather: string)
    requires Fleet(vs, trackData)
    modifies vs`tire
    ensures Fleet(vs, trackData)
    ensures forall i :: 0 <= i < |vs| ==> fresh(vs[i].tire) && FreshTire(vs[i].tire, old(vs[i].tire.compound), weather)
  {
    for i := 0 to |vs|
      invariant Fleet(vs, trackData)
      invariant forall j :: 0 <= j < i ==> fresh(vs[j].tire) && FreshTire(vs[j].tire, old(vs[j].tire.compound), weather)
      invariant forall j :: i <= j < |vs| ==> vs[j].tire == old(vs[j].tire)
    {
      RenewTire(vs, i, trackData, weather);
    }
  }

  /** Everything about a vehicle that the simulation can change: its own
      mutable fields, the tire it carries and that tire's mutable fields. */
  datatype CarState = CarState(
    pos: (real, real), vel: real, accel: real, heading: real, trackIndex: nat,
    distanceOnTrack: real, currentLap: int, status: string,
    tire: Tire, baseGrip: real, temp: real, wear: real)

  ghost function StateOf(v: Vehicle): CarState
    reads v, v.tire
  {
    CarState(v.pos, v.vel, v.accel, v.heading, v.trackIndex, v.distanceOnTrack, v.currentLap, v.status,
             v.tire, v.tire.baseGrip, v.tire.currentTemp, v.tire.currentWear)
  }

  /** The draws one `Vehicle.update` takes: none unless the vehicle is
      racing on a non-empty track, otherwise one, or three when the first
      exceeds the driver's consistency. */
  function TickDraws(status: string, driver: Driver, track: seq<TrackPoint>, rand: nat -> real, k: nat): nat
  {
    if status != "Racing" || |track| == 0 then 0
    else if rand(k) > driver.consistency then 3 else 1
  }

  /** `Vehicle.update` from state `s` to state `t`, taking draws `k0` up to
      `k`, as its contract states it: nothing changes unless the vehicle is
      racing on a non-empty track; otherwise it keeps its tire, base grip
      and status, its speed is non-negative, it moves by its new speed
      times `dt` with the lap wrapped at the last point, it stands on the
      first point reaching its new distance (when there is one), and for a
      non-negative step its tire gains wear. */
  predicate Ticked(s: CarState, t: CarState, driver: Driver, dt: real, track: seq<TrackPoint>,
                   atan2: (real, real) -> real, rand: nat -> real, k0: nat, k: nat)
  {
    k == k0 + TickDraws(s.status, driver, track, rand, k0) &&
    if s.status != "Racing" || |track| == 0 then t == s
    else
      && t.tire == s.tire && t.baseGrip == s.baseGrip && t.status == s.status && t.vel >= 0.0
      && (t.distanceOnTrack, t.currentLap) ==
           Wrap(s.distanceOnTrack + Travel(t.vel, dt), track[|track| - 1].distance, s.currentLap)
      && (var i := FirstReaching(track, t.distanceOnTrack);
          if i < |track| then
            t.trackIndex == i && t.pos == (track[i].x, track[i].y) &&
            (i + 1 < |track| ==> t.heading == SegmentHeading(track, i, atan2))
          else
            t.trackIndex == s.trackIndex && t.pos == s.pos)
      && (dt >= 0.0 ==> s.wear <= t.wear)
  }

  /** A tick never loses a lap and gains at most one. */
  lemma TickedLapBound(s: CarState, t: CarState, driver: Driver, dt: real, track: seq<TrackPoint>,
                       atan2: (real, real) -> real, rand: nat -> real, k0: nat, k: nat)
    requires Ticked(s, t, driver, dt, track, atan2, rand, k0, k)
    ensures s.currentLap <= t.currentLap <= s.currentLap + 1
    ensures s.status == t.status && s.tire == t.tire
  {
  }

  /** `_trigger_random_event`'s effect on its victim: event 0 retires it
      ("DNF - Mechanical"), event 1 cuts its speed to 30%, event 2
      punctures its tire (wear 0.95). */
  function EventEffect(s: CarState, event: nat): (t: CarState)
    requires event < 3
    ensures t.currentLap == s.currentLap && t.tire == s.tire && t.pos == s.pos
    ensures t.distanceOnTrack == s.distanceOnTrack && t.trackIndex == s.trackIndex
    ensures (t.status != s.status) ==> event == 0 && t.status == "DNF - Mechanical"
    ensures (t.vel != s.vel) ==> event == 1 && t.vel == 0.3 * s.vel
    ensures (t.wear != s.wear) ==> event == 2 && t.wear == 0.95
    ensures t == s.(status := t.status, vel := t.vel, wear := t.wear)
  {
    if event == 0 then s.(status := "DNF - Mechanical")
    else if event == 1 then s.(vel := s.vel * 0.3)
    else s.(wear := 0.95)
  }

  /** The draw counter once the first `n` of the vehicles in states
      `before`, driven by `drivers`, have ticked, starting at `k0`. */
  function DrawsBefore(before: seq<CarState>, drivers: seq<Driver>, n: nat,
                       track: seq<TrackPoint>, rand: nat -> real, k0: nat): nat
    requires n <= |before| && n <= |drivers|
  {
    if n == 0 then k0
    else
      var k := DrawsBefore(before, drivers, n - 1, track, rand, k0);
      k + TickDraws(before[n - 1].status, drivers[n - 1], track, rand, k)
  }

  /** The `update` loop from states `before` to `after`: vehicle `j` ticks
      taking its draws where vehicle `j - 1` stopped. */
  predicate FleetTicked(before: seq<CarState>, after: seq<CarState>, drivers: seq<Driver>, dt: real,
                        track: seq<TrackPoint>, atan2: (real, real) -> real, rand: nat -> real, k0: nat)
  {
    && |before| == |after| == |drivers|
    && forall j :: 0 <= j < |before| ==>
         Ticked(before[j], after[j], drivers[j], dt, track, atan2, rand,
                DrawsBefore(before, drivers, j, track, rand, k0), DrawsBefore(before, drivers, j + 1, track, rand, k0))
  }

  /** A chaos event: vehicle `victimChoice % |states|` suffers event
      `eventChoice % 3`; nothing happens to an empty fleet. */
  function Struck(states: seq<CarState>, eventChoice: nat, victimChoice: nat): (r: seq<CarState>)
    ensures |r| == |states|
    ensures forall j :: 0 <= j < |states| && j != victimChoice % |states| ==> r[j] == states[j]
  {
    if |states| == 0 then states
    else
      var v := victimChoice % |states|;
      states[v := EventEffect(states[v], eventChoice % 3)]
  }

  /** Over one `update`, chaos event or not, every vehicle keeps its tire
      and gains at most one lap, and a vehicle that was not racing only
      changes if the event strikes it. */
  lemma UpdateLapBound(before: seq<CarState>, ticked: seq<CarState>, drivers: seq<Driver>, dt: real,
                       track: seq<TrackPoint>, atan2: (real, real) -> real, rand: nat -> real, k0: nat,
                       strike: bool, eventChoice: nat, victimChoice: nat, after: seq<CarState>)
    requires FleetTicked(before, ticked, drivers, dt, track, atan2, rand, k0)
    requires after == if strike then Struck(ticked, eventChoice, victimChoice) else ticked
    ensures |after| == |before|
    ensures forall j :: 0 <= j < |before| ==>
              before[j].currentLap <= after[j].currentLap <= before[j].currentLap + 1 && after[j].tire == before[j].tire
    ensures forall j :: 0 <= j < |before| && before[j].status != "Racing" && !(strike && j == victimChoice % |before|) ==>
              after[j] == before[j]
  {
    forall j | 0 <= j < |before|
      ensures before[j].currentLap <= after[j].currentLap <= before[j].currentLap + 1 && after[j].tire == before[j].tire
      ensures before[j].status != "Racing" && !(strike && j == victimChoice % |before|) ==> after[j] == before[j]
    {
      TickedLapBound(before[j], ticked[j], drivers[j], dt, track, atan2, rand,
                     DrawsBefore(before, drivers, j, track, rand, k0), DrawsBefore(before, drivers, j + 1, track, rand, k0));
      if strike && j == victimChoice % |before| {
        assert after[j] == EventEffect(ticked[j], eventChoice % 3);
      }
    }
  }

  ghost function StatesOf(vs: seq<Vehicle>): (r: seq<CarState>)
    reads vs, TiresOf(vs)
    ensures |r| == |vs| && forall j :: 0 <= j < |vs| ==> r[j] == StateOf(vs[j])
  {
    seq(|vs|, j requires 0 <= j < |vs| reads vs, TiresOf(vs) => StateOf(vs[j]))
  }

  function DriversOf(vs: seq<Vehicle>): (r: seq<Driver>)
    ensures |r| == |vs| && forall j :: 0 <= j < |vs| ==> r[j] == vs[j].driver
  {
    seq(|vs|, j requires 0 <= j < |vs| => vs[j].driver)
  }

  /** One iteration of the `update` loop: vehicle `i` ticks, taking its
      draws from `k0`; every other vehicle and tire is left as it was. */
  method TickVehicle(vs: seq<Vehicle>, i: nat, dt: real, trackData: seq<TrackPoint>,
                     atan2: (real, real) -> real, rand: nat -> real, k0: nat)
    returns (k: nat)
    requires i < |vs| && Fleet(vs, trackData)
    modifies vs[i], vs[i].tire
    ensures Fleet(vs, trackData)
    ensures Ticked(old(StateOf(vs[i])), StateOf(vs[i]), vs[i].driver, dt, trackData, atan2, rand, k0, k)
    ensures forall j :: 0 <= j < |vs| && j != i ==> StateOf(vs[j]) == old(StateOf(vs[j]))
  {
    assert vs[i].tire in TiresOf(vs);
    k := vs[i].Update(dt, trackData, atan2, rand, k0);
    forall j | 0 <= j < |vs| && j != i
      ensures vs[j].tire.Valid() && StateOf(vs[j]) == old(StateOf(vs[j]))
    {
      assert vs[j] != vs[i] && vs[j].tire != vs[i].tire;
    }
  }

  /** The `update` loop: every vehicle ticks once, in order, vehicle `j`
      taking its draws where vehicle `j - 1` stopped. */
  method TickFleet(vs: seq<Vehicle>, dt: real, trackData: seq<TrackPoint>,
                   atan2: (real, real) -> real, rand: nat -> real, k0: nat)
    returns (k: nat)
    requires Fleet(vs, trackData)
    modifies vs, TiresOf(vs)
    ensures Fleet(vs, trackData)
    ensures forall j :: 0 <= j < |vs| ==> vs[j].tire == old(vs[j].tire)
    ensures FleetTicked(old(StatesOf(vs)), StatesOf(vs), DriversOf(vs), dt, trackData, atan2, rand, k0)
    ensures k == DrawsBefore(old(StatesOf(vs)), DriversOf(vs), |vs|, trackData, rand, k0)
  {
    ghost var s0 := StatesOf(vs);
    ghost var ds := DriversOf(vs);
    k := k0;
    for i := 0 to |vs|
      invariant Fleet(vs, trackData)
      invariant k == DrawsBefore(s0, ds, i, trackData, rand, k0)
      invariant forall j :: 0 <= j < |vs| ==> vs[j].tire == s0[j].tire
      invariant forall j :: 0 <= j < i ==>
                  Ticked(s0[j], StateOf(vs[j]), ds[j], dt, trackData, atan2, rand,
                         DrawsBefore(s0, ds, j, trackData, rand, k0), DrawsBefore(s0, ds, j + 1, trackData, rand, k0))
      invariant forall j :: i <= j < |vs| ==> StateOf(vs[j]) == s0[j]
    {
      k := TickVehicle(vs, i, dt, trackData, atan2, rand, k);
    }
  }

  ghost function TiresOf(vs: seq<Vehicle>): set<Tire>
    reads vs`tire
  {
    set i | 0 <= i < |vs| :: vs[i].tire
  }

  /** No vehicle appears twice. */
  ghost predicate VehiclesDistinct(vs: seq<Vehicle>)
  {
    forall i, j :: 0 <= i < j < |vs| ==> vs[i] != vs[j]
  }

  /** No two vehicles share a tire. */
  ghost predicate TiresDistinct(vs: seq<Vehicle>)
    reads vs`tire
  {
    forall i, j :: 0 <= i < j < |vs| ==> vs[i].tire != vs[j].tire
  }

  /** Every tire is valid. */
  ghost predicate TiresValid(vs: seq<Vehicle>)
    reads vs`tire, TiresOf(vs)
  {
    forall i :: 0 <= i < |vs| ==> vs[i].tire.Valid()
  }

  /** Every vehicle's segment index lies within the track. */
  ghost predicate IndexesInTrack(vs: seq<Vehicle>, trackData: seq<TrackPoint>)
    reads vs`trackIndex
  {
    forall i :: 0 <= i < |vs| ==> |trackData| == 0 || vs[i].trackIndex < |trackData|
  }

  /** Vehicles and their tires are pairwise distinct objects, every tire is
      valid, and every vehicle's segment index lies within the track. */
  ghost predicate Fleet(vs: seq<Vehicle>, trackData: seq<TrackPoint>)
    reads vs`tire, vs`trackIndex, TiresOf(vs)
  {
    VehiclesDistinct(vs) && TiresDistinct(vs) && TiresValid(vs) && IndexesInTrack(vs, trackData)
  }

  class Simulation {
    var vehicles: seq<Vehicle>
    var trackData: seq<TrackPoint>
    var trackName: string
    var globalWeather: string
    var chaosLevel: real
    var isRunning: bool
    var simulationTime: real
    /** The time step, 50 ms. */
    const dt: real

    ghost function Tires(): set<Tire>
      reads this`vehicles, vehicles`tire
    {
      TiresOf(vehicles)
    }

    /** The vehicle list is well formed against the track. */
    ghost predicate Valid()
      reads this`vehicles, this`trackData, vehicles, Tires()
    {
      Fleet(vehicles, trackData)
    }

    constructor ()
      ensures vehicles == [] && trackData == [] && trackName == "" && globalWeather == "Dry"
      ensures chaosLevel == 0.0 && !isRunning && simulationTime == 0.0 && dt == 0.05
      ensures Valid()
    {
      vehicles := [];
      trackData := [];
      trackName := "";
      globalWeather := "Dry";
      chaosLevel := 0.0;
      isRunning := false;
      simulationTime := 0.0;
      dt := 0.05;
    }

    /** `configure`: take the parameters with their defaults ("Monza", no
        track, "Dry", chaos 0.0, no agents), build one vehicle per agent in
        order, consuming one draw each, and start the clock at 0. */
    method Configure(params: ConfigureParams, rand: nat -> real, k0: nat) returns (k: nat)
      modifies this
      ensures trackName == params.track.GetOr("Monza") && trackData == params.trackData.GetOr([])
      ensures globalWeather == params.weather.GetOr("Dry") && chaosLevel == params.chaosLevel.GetOr(0.0)
      ensures |vehicles| == |params.agents.GetOr([])| && k == k0 + |vehicles|
      ensures forall i :: 0 <= i < |vehicles| ==> fresh(vehicles[i]) && fresh(vehicles[i].tire)
      ensures AllConfigured(vehicles, params.agents.GetOr([]), trackData, globalWeather, rand, k0)
      ensures isRunning && simulationTime == 0.0
      ensures Valid()
    {
      trackName := params.track.GetOr("Monza");
      trackData := params.trackData.GetOr([]);
      globalWeather := params.weather.GetOr("Dry");
      chaosLevel := params.chaosLevel.GetOr(0.0);
      isRunning := true;
      simulationTime := 0.0;
      k := PlaceFleet(params.agents.GetOr([]), rand, k0);
    }

    /** The vehicle loop of `configure`: one vehicle per agent, built
        against the current track and weather. */
    method PlaceFleet(agents: seq<AgentConfig>, rand: nat -> real, k0: nat) returns (k: nat)
      modifies this`vehicles
      ensures |vehicles| == |agents| && k == k0 + |vehicles|
      ensures forall i :: 0 <= i < |vehicles| ==> fresh(vehicles[i]) && fresh(vehicles[i].tire)
      ensures AllConfigured(vehicles, agents, trackData, globalWeather, rand, k0)
      ensures Valid()
    {
      var configured := ConfigureFleet(agents, trackData, globalWeather, rand, k0);
      vehicles := configured;
      k := k0 + |configured|;
    }

    /** `_trigger_random_event` with the two `random.choice` results given
        as indices: the victim, vehicle `victimChoice % |vehicles|`, suffers
        event `eventChoice % 3`; no other vehicle or tire changes. */
    method TriggerRandomEvent(eventChoice: nat, victimChoice: nat)
      requires Valid()
      modifies vehicles, Tires()
      ensures Valid()
      ensures States() == Struck(old(States()), eventChoice, victimChoice)
    {
      if |vehicles| == 0 {
        return;
      }
      var victim := vehicles[victimChoice % |vehicles|];
      var eventType := eventChoice % 3;
      assert victim.tire in Tires();
      if eventType == 0 {
        victim.status := "DNF - Mechanical";
      } else if eventType == 1 {
        victim.vel := victim.vel * 0.3;
      } else {
        victim.tire.currentWear := 0.95;
      }
      forall i | 0 <= i < |vehicles| && i != victimChoice % |vehicles|
        ensures StateOf(vehicles[i]) == old(StateOf(vehicles[i]))
      {
        assert vehicles[i] != victim && vehicles[i].tire != victim.tire;
      }
    }

    /** The states of the vehicles, in order. */
    ghost function States(): seq<CarState>
      reads this`vehicles, vehicles, Tires()
    {
      StatesOf(vehicles)
    }

    /** `update`: a no-op when stopped. Otherwise every vehicle ticks in
        order (to the states `ticked`), one more draw decides a chaos event
        (probability `chaos_level / 1000`), which then strikes its victim,
        and the clock advances by exactly `dt`. */
    method Update(atan2: (real, real) -> real, rand: nat -> real, k0: nat, eventChoice: nat, victimChoice: nat)
      returns (k: nat, ghost ticked: seq<CarState>)
      requires Valid()
      modifies this, vehicles, Tires()
      ensures Valid() && vehicles == old(vehicles) && isRunning == old(isRunning)
      ensures trackData == old(trackData) && trackName == old(trackName)
      ensures globalWeather == old(globalWeather) && chaosLevel == old(chaosLevel)
      ensures !old(isRunning) ==> k == k0 && simulationTime == old(simulationTime) && States() == old(States())
      ensures old(isRunning) ==>
                && simulationTime == old(simulationTime) + dt
                && FleetTicked(old(States()), ticked, DriversOf(vehicles), dt, trackData, atan2, rand, k0)
                && var kTicked := DrawsBefore(old(States()), DriversOf(vehicles), |vehicles|, trackData, rand, k0);
                   k == kTicked + 1 &&
                   States() == if rand(kTicked) < chaosLevel * 0.001 then Struck(ticked, eventChoice, victimChoice) else ticked
    {
      if !isRunning {
        return k0, States();
      }
      k, ticked := Step(atan2, rand, k0, eventChoice, victimChoice);
    }

    /** The running branch of `update`: advance the clock, tick every
        vehicle and draw for a chaos event. The clock does not take part in
        the tick, so advancing it first changes nothing. */
    method Step(atan2: (real, real) -> real, rand: nat -> real, k0: nat, eventChoice: nat, victimChoice: nat)
      returns (k: nat, ghost ticked: seq<CarState>)
      requires Valid() && isRunning
      modifies this, vehicles, Tires()
      ensures Valid() && vehicles == old(vehicles) && isRunning
      ensures trackData == old(trackData) && trackName == old(trackName)
      ensures globalWeather == old(globalWeather) && chaosLevel == old(chaosLevel)
      ensures simulationTime == old(simulationTime) + dt
      ensures FleetTicked(old(States()), ticked, DriversOf(vehicles), dt, trackData, atan2, rand, k0)
      ensures var kTicked := DrawsBefore(old(States()), DriversOf(vehicles), |vehicles|, trackData, rand, k0);
              k == kTicked + 1 &&
              States() == if rand(kTicked) < chaosLevel * 0.001 then Struck(ticked, eventChoice, victimChoice) else ticked
    {
      simulationTime := simulationTime + dt;
      k, ticked := TickAndStrike(atan2, rand, k0, eventChoice, victimChoice);
    }

    /** The vehicle part of a running `update`: tick every vehicle, then
        draw once for a chaos event, which strikes its victim with
        probability `chaos_level / 1000`. */
    method TickAndStrike(atan2: (real, real) -> real, rand: nat -> real, k0: nat, eventChoice: nat, victimChoice: nat)
      returns (k: nat, ghost ticked: seq<CarState>)
      requires Valid()
      modifies vehicles, Tires()
      ensures Valid()
      ensures FleetTicked(old(States()), ticked, DriversOf(vehicles), dt, trackData, atan2, rand, k0)
      ensures var kTicked := DrawsBefore(old(States()), DriversOf(vehicles), |vehicles|, trackData, rand, k0);
              k == kTicked + 1 &&
              States() == if rand(kTicked) < chaosLevel * 0.001 then Struck(ticked, eventChoice, victimChoice) else ticked
    {
      k := TickFleet(vehicles, dt, trackData, atan2, rand, k0);
      ticked := States();
      assert Tires() == old(Tires());
      if rand(k) < chaosLevel * 0.001 {
        TriggerRandomEvent(eventChoice, victimChoice);
      }
      k := k + 1;
    }

    /** `set_weather`: record the weather and give every vehicle a fresh
        tire of the same compound, which resets its wear and temperature;
        wet weather scales the new tire's grip by 0.7. Only the weather
        and the vehicles' `tire` fields may change. */
    method SetWeather(weather: string)
      requires Valid()
      modifies this`globalWeather, vehicles`tire
      ensures Valid() && globalWeather == weather
      ensures forall i :: 0 <= i < |vehicles| ==>
                fresh(vehicles[i].tire) && FreshTire(vehicles[i].tire, old(vehicles[i].tire.compound), weather)
    {
      RenewTires(vehicles, trackData, weather);
      globalWeather := weather;
    }

    /** `set_chaos`: the level clamped to [0, 1]; a level already in range
        is kept as given. */
    method SetChaos(level: real)
      modifies this
      ensures 0.0 <= chaosLevel <= 1.0
      ensures 0.0 <= level <= 1.0 ==> chaosLevel == level
      ensures level < 0.0 ==> chaosLevel == 0.0
      ensures level > 1.0 ==> chaosLevel == 1.0
      ensures vehicles == old(vehicles) && trackData == old(trackData) && trackName == old(trackName)
      ensures globalWeather == old(globalWeather) && isRunning == old(isRunning) && simulationTime == old(simulationTime)
    {
      chaosLevel := Max(0.0, Min(1.0, level));
    }

    /** `stop`: clears `is_running` and nothing else. */
    method Stop()
      modifies this
      ensures !isRunning
      ensures vehicles == old(vehicles) && trackData == old(trackData) && trackName == old(trackName)
      ensures globalWeather == old(globalWeather) && chaosLevel == old(chaosLevel) && simulationTime == old(simulationTime)
    {
      isRunning := false;
    }

    /** `reset`: no vehicles, stopped, clock at 0; track, weather and chaos
        level are kept. */
    method Reset()
      modifies this
      ensures vehicles == [] && !isRunning && simulationTime == 0.0
      ensures trackData == old(trackData) && trackName == old(trackName)
      ensures globalWeather == old(globalWeather) && chaosLevel == old(chaosLevel)
      ensures Valid()
    {
      vehicles := [];
      isRunning := false;
      simulationTime := 0.0;
    }

    /** `get_state_snapshot`: the clock, track name, weather and chaos
        level, and exactly one telemetry entry per vehicle, in vehicle
        order. */
    function GetStateSnapshot(): (s: StateSnapshot)
      reads this, vehicles, Tires()
      ensures s.time == simulationTime && s.track == trackName
      ensures s.weather == globalWeather && s.chaosLevel == chaosLevel
      ensures |s.vehicles| == |vehicles|
      ensures forall i :: 0 <= i < |vehicles| ==> s.vehicles[i] == vehicles[i].GetTelemetry()
    {
      StateSnapshot(simulationTime, trackName, globalWeather, chaosLevel,
                    seq(|vehicles|, i requires 0 <= i < |vehicles| reads this, vehicles, Tires() => vehicles[i].GetTelemetry()))
    }
  }
}
