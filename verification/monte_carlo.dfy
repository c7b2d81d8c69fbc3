/** Monte Carlo race simulation: each scenario drives the configured number
    of laps, adding weather, tyre, fuel, engine, driver-error and
    session-event effects to a base lap time, and stops early on a
    reliability failure (DNF) or a red flag. Random draws come from the
    stream `rand`, consumed in the source's order, with the draw counter
    threaded through. */
module MonteCarlo {
  import opened Wrappers
  import opened PyRandom
  import opened RealArith
  import Stats

  datatype RaceConfig = RaceConfig(
    circuitLength: real, numLaps: int, trackTemp: real, humidity: real, windSpeed: real,
    tireCompound: string, tireDegradationRate: real, fuelLoad: real, enginePowerMode: string,
    driverSkill: real, driverAggression: real, reliabilityScore: real, safetyCarProb: real,
    scEventLap: Option<int>, vscEventProb: real, redFlagProb: real, overrideSpeed: Option<real>)

  /** The keyword arguments of `RaceConfig(**kwargs)`; `None` is an absent key. */
  datatype RaceConfigArgs = RaceConfigArgs(
    circuitLength: Option<real>, numLaps: Option<int>, trackTemp: Option<real>, humidity: Option<real>,
    windSpeed: Option<real>, tireCompound: Option<string>, tireDegradationRate: Option<real>,
    fuelLoad: Option<real>, enginePowerMode: Option<string>, driverSkill: Option<real>,
    driverAggression: Option<real>, reliabilityScore: Option<real>, safetyCarProb: Option<real>,
    scEventLap: Option<int>, vscEventProb: Option<real>, redFlagProb: Option<real>, overrideSpeed: Option<real>)

  const NoArgs := RaceConfigArgs(None, None, None, None, None, None, None, None, None,
                                 None, None, None, None, None, None, None, None)

  /** `RaceConfig(**kwargs)`: every absent option takes its default. */
  function NewRaceConfig(args: RaceConfigArgs): RaceConfig
  {
    RaceConfig(
      args.circuitLength.GetOr(5.89), args.numLaps.GetOr(52), args.trackTemp.GetOr(32.0),
      args.humidity.GetOr(45.0), args.windSpeed.GetOr(12.0), args.tireCompound.GetOr("Soft"),
      args.tireDegradationRate.GetOr(0.07), args.fuelLoad.GetOr(100.0), args.enginePowerMode.GetOr("Push"),
      args.driverSkill.GetOr(0.95), args.driverAggression.GetOr(0.7), args.reliabilityScore.GetOr(0.98),
      args.safetyCarProb.GetOr(0.03), args.scEventLap, args.vscEventProb.GetOr(0.02),
      args.redFlagProb.GetOr(0.01), args.overrideSpeed)
  }

  /** Random draws and the counter after them. */
  datatype Drawn<T> = Drawn(value: T, next: nat)

  /** Base lap time in seconds: 86 s scaled by the circuit length against
      the 5.89 km reference circuit. */
  function BaseLapTime(c: RaceConfig): real
  {
    86.0 * (c.circuitLength / 5.89)
  }

  /** `weather_penalty`: +0.13 s above 35 °C; when humid (above 70 %) a 15 %
      chance of +0.6 s; when windy (above 20) a 9 % chance of +0.12 s. A
      draw is taken only when its condition holds. */
  function WeatherPenalty(c: RaceConfig, rand: nat -> real, k: nat): (r: Drawn<real>)
    ensures r.next == k + (if c.humidity > 70.0 then 1 else 0) + (if c.windSpeed > 20.0 then 1 else 0)
    ensures 0.0 <= r.value <= 0.85
    ensures c.trackTemp > 35.0 ==> r.value >= 0.13
    ensures c.trackTemp <= 35.0 && c.humidity <= 70.0 && c.windSpeed <= 20.0 ==> r.value == 0.0
  {
    var p0 := if c.trackTemp > 35.0 then 0.13 else 0.0;
    var d1 := if c.humidity > 70.0 then Drawn(if rand(k) < 0.15 then p0 + 0.6 else p0, k + 1) else Drawn(p0, k);
    if c.windSpeed > 20.0 then Drawn(if rand(d1.next) < 0.09 then d1.value + 0.12 else d1.value, d1.next + 1)
    else d1
  }

  /** Degradation rate per compound, 0.08 for an unknown compound. */
  function CompoundRate(compound: string): (rate: real)
    ensures 0.05 <= rate <= 0.12
  {
    if compound == "Soft" then 0.10
    else if compound == "Medium" then 0.07
    else if compound == "Hard" then 0.05
    else if compound == "Wet" then 0.12
    else 0.08
  }

  /** `tire_degradation`: the lap number times the compound's rate (the
      configured degradation rate is not used). */
  function TireDegradation(lap: int, c: RaceConfig): real
  {
    (lap as real) * CompoundRate(c.tireCompound)
  }

  /** `fuel_penalty`: proportional to the fuel still on board. */
  function FuelPenalty(lap: int, c: RaceConfig): real
    requires c.numLaps != 0
  {
    (c.fuelLoad * (1.0 - (lap as real) / (c.numLaps as real))) * 0.016
  }

  /** `engine_mode_factor`, 0 for an unknown mode. */
  function EngineModeFactor(mode: string): (f: real)
    ensures -0.35 <= f <= 0.16
  {
    if mode == "Push" then -0.35
    else if mode == "Conserve" then 0.16
    else if mode == "Overtake" then -0.25
    else 0.0
  }

  /** `driver_error_prob`: the skill/aggression formula floored at 1 %. */
  function DriverErrorProb(c: RaceConfig): (p: real)
    ensures p >= 0.01 && p >= 0.12 - c.driverSkill * 0.1 - c.driverAggression * 0.05
    ensures p == 0.01 || p == 0.12 - c.driverSkill * 0.1 - c.driverAggression * 0.05
  {
    var raw := 0.12 - c.driverSkill * 0.1 - c.driverAggression * 0.05;
    if 0.01 >= raw then 0.01 else raw
  }

  /** `reliability_failure`: a draw above the reliability score. */
  function ReliabilityFailure(c: RaceConfig, rand: nat -> real, k: nat): bool
  {
    rand(k) > c.reliabilityScore
  }

  /** The events of one lap; they stand for the strings of the event list. */
  datatype Events = Events(safetyCar: bool, vsc: bool, redFlag: bool)

  /** `session_event`: a safety car on the scheduled lap (no draw is taken
      then, as `or` short-circuits) or with its probability, then a VSC and
      a red flag each with its probability. */
  function SessionEvent(c: RaceConfig, lap: int, rand: nat -> real, k: nat): (r: Drawn<Events>)
    ensures r.next == k + (if c.scEventLap == Some(lap) then 2 else 3)
    ensures c.scEventLap == Some(lap) ==> r.value.safetyCar
  {
    var scheduled := c.scEventLap == Some(lap);
    var k1 := if scheduled then k else k + 1;
    var safetyCar := scheduled || rand(k) < c.safetyCarProb;
    var vsc := rand(k1) < c.vscEventProb;
    var redFlag := rand(k1 + 1) < c.redFlagProb;
    Drawn(Events(safetyCar, vsc, redFlag), k1 + 2)
  }

  datatype Status = Finished | Dnf(lap: int) | RedFlagStop(lap: int)

  datatype ScenarioResult = ScenarioResult(lapTimes: seq<Option<real>>, status: Status)

  predicate AllSome(laps: seq<Option<real>>)
  {
    forall i :: 0 <= i < |laps| ==> laps[i].Some?
  }

  /** How a scenario ends: a finished one has every lap; a DNF on lap `l`
      has `l` entries, the last one empty; a red flag on lap `l` has the
      `l - 1` completed laps. */
  predicate ScenarioShape(r: ScenarioResult, numLaps: int)
  {
    match r.status
    case Finished => |r.lapTimes| == (if numLaps > 0 then numLaps else 0) && AllSome(r.lapTimes)
    case Dnf(l) =>
      1 <= l <= numLaps && |r.lapTimes| == l && r.lapTimes[l - 1].None? && AllSome(r.lapTimes[..l - 1])
    case RedFlagStop(l) => 1 <= l <= numLaps && |r.lapTimes| == l - 1 && AllSome(r.lapTimes)
  }

  /** The fastest lap a configuration allows: the override lap time, or the
      base lap time with the engine mode's gain. */
  function LapFloor(c: RaceConfig): real
    requires c.overrideSpeed != Some(0.0)
  {
    match c.overrideSpeed
    case Some(s) => c.circuitLength * 3600.0 / s
    case None => BaseLapTime(c) + EngineModeFactor(c.enginePowerMode)
  }

  /** The conditions under which every recorded lap is at least the floor:
      unit random draws and, without an override, a non-negative fuel load. */
  ghost predicate FloorApplies(c: RaceConfig, rand: nat -> real)
  {
    UnitDraws(rand) && (c.overrideSpeed.None? ==> c.fuelLoad >= 0.0)
  }

  predicate AboveFloor(laps: seq<Option<real>>, floor: real)
  {
    forall i :: 0 <= i < |laps| ==> laps[i].Some? ==> laps[i].value >= floor
  }

  /** Degradation and fuel penalties are non-negative during the race. */
  lemma PenaltiesNonneg(lap: int, c: RaceConfig)
    requires 1 <= lap <= c.numLaps && c.fuelLoad >= 0.0
    ensures TireDegradation(lap, c) >= 0.0
    ensures FuelPenalty(lap, c) >= 0.0
  {
    MulNonneg(lap as real, CompoundRate(c.tireCompound));
    var q := (lap as real) / (c.numLaps as real);
    assert q * (c.numLaps as real) == lap as real;
    assert q <= 1.0;
    MulNonneg(c.fuelLoad, 1.0 - q);
  }

  /** How one lap ends: completed in `time` seconds, with a reliability
      failure, or under a red flag. */
  datatype LapEnd = Completed(time: real) | Failed | Stopped

  /** The lap time before any driver error or session event: the override
      lap time, or the base time with weather, tyre, fuel and engine terms. */
  function DrivenTime(c: RaceConfig, lap: int, rand: nat -> real, k: nat): Drawn<real>
    requires c.overrideSpeed != Some(0.0) && c.numLaps != 0
  {
    if c.overrideSpeed.Some? then Drawn(c.circuitLength * 3600.0 / c.overrideSpeed.value, k)
    else
      var weather := WeatherPenalty(c, rand, k);
      Drawn(BaseLapTime(c) + weather.value + TireDegradation(lap, c) + FuelPenalty(lap, c)
              + EngineModeFactor(c.enginePowerMode), weather.next)
  }

  /** One lap of `run_race_scenarios`, from draw `k`: the driven time, a
      driver error with its probability, the reliability roll, then the
      session events, a safety car adding 8 s and a VSC 4 s. */
  function Lap(c: RaceConfig, lap: int, rand: nat -> real, k: nat): Drawn<LapEnd>
    requires c.overrideSpeed != Some(0.0) && c.numLaps != 0
  {
    var driven := DrivenTime(c, lap, rand, k);
    var withError :=
      if rand(driven.next) < DriverErrorProb(c) then Drawn(driven.value + Uniform(0.3, 2.5, rand(driven.next + 1)), driven.next + 2)
      else Drawn(driven.value, driven.next + 1);
    if ReliabilityFailure(c, rand, withError.next) then Drawn(Failed, withError.next + 1)
    else
      var events := SessionEvent(c, lap, rand, withError.next + 1);
      var t := withError.value + (if events.value.safetyCar then 8.0 else 0.0) + (if events.value.vsc then 4.0 else 0.0);
      if events.value.redFlag then Drawn(Stopped, events.next) else Drawn(Completed(t), events.next)
  }

  /** Laps `lap` onwards of a scenario that has recorded `lapTimes` and is
      at draw `k`, and the draw counter at its end. */
  function ScenarioFrom(c: RaceConfig, lap: int, rand: nat -> real, k: nat, lapTimes: seq<Option<real>>): (ScenarioResult, nat)
    requires c.overrideSpeed != Some(0.0) && lap >= 1
    decreases c.numLaps - lap
  {
    if lap > c.numLaps then (ScenarioResult(lapTimes, Finished), k)
    else
      var l := Lap(c, lap, rand, k);
      match l.value
      case Failed => (ScenarioResult(lapTimes + [None], Dnf(lap)), l.next)
      case Stopped => (ScenarioResult(lapTimes, RedFlagStop(lap)), l.next)
      case Completed(t) => ScenarioFrom(c, lap + 1, rand, l.next, lapTimes + [Some(t)])
  }

  /** One whole scenario from draw `k0`. */
  function Scenario(c: RaceConfig, rand: nat -> real, k0: nat): (ScenarioResult, nat)
    requires c.overrideSpeed != Some(0.0)
  {
    ScenarioFrom(c, 1, rand, k0, [])
  }

  /** A driver error costs nothing, or between 0.3 s and 2.5 s. */
  predicate ErrorDelay(e: real)
  {
    e == 0.0 || 0.3 <= e <= 2.5
  }

  /** What a completed lap adds to its driven time: a driver error, plus
      8 s under a safety car and 4 s under a VSC. */
  predicate Surcharge(x: real)
  {
    ErrorDelay(x) || ErrorDelay(x - 4.0) || ErrorDelay(x - 8.0) || ErrorDelay(x - 12.0)
  }

  /** The draws the weather penalty takes: none with an override speed. */
  function WeatherDraws(c: RaceConfig): nat
  {
    if c.overrideSpeed.Some? then 0
    else (if c.humidity > 70.0 then 1 else 0) + (if c.windSpeed > 20.0 then 1 else 0)
  }

  /** With unit draws a completed lap is its driven time plus a surcharge;
      with an override speed that is the override lap time plus a
      surcharge, with no weather, tyre, fuel or engine term. A lap takes the
      weather draws (none with an override), then two to six draws. */
  lemma LapProperties(c: RaceConfig, lap: int, rand: nat -> real, k: nat)
    requires c.overrideSpeed != Some(0.0) && c.numLaps != 0
    ensures var l := Lap(c, lap, rand, k);
      k + WeatherDraws(c) + 2 <= l.next <= k + WeatherDraws(c) + 6
    ensures var l := Lap(c, lap, rand, k);
      UnitDraws(rand) && l.value.Completed? ==> Surcharge(l.value.time - DrivenTime(c, lap, rand, k).value)
    ensures var l := Lap(c, lap, rand, k);
      UnitDraws(rand) && l.value.Completed? && c.overrideSpeed.Some? ==> Surcharge(l.value.time - LapFloor(c))
  {
    var driven := DrivenTime(c, lap, rand, k);
    assert driven.next == k + WeatherDraws(c);
    if UnitDraws(rand) {
      UniformRange(0.3, 2.5, rand(driven.next + 1));
    }
  }

  /** With unit draws, and without an override a non-negative fuel load, a
      lap within the race is driven in at least the configuration's floor. */
  lemma DrivenAboveFloor(c: RaceConfig, lap: int, rand: nat -> real, k: nat)
    requires c.overrideSpeed != Some(0.0) && 1 <= lap <= c.numLaps
    requires FloorApplies(c, rand)
    ensures DrivenTime(c, lap, rand, k).value >= LapFloor(c)
  {
    if c.overrideSpeed.None? {
      PenaltiesNonneg(lap, c);
    }
  }

  /** A completed lap within the race, with unit draws and (without an
      override) a non-negative fuel load, is at least the floor. */
  lemma CompletedAboveFloor(c: RaceConfig, lap: int, rand: nat -> real, k: nat)
    requires c.overrideSpeed != Some(0.0) && 1 <= lap <= c.numLaps
    requires FloorApplies(c, rand)
    ensures Lap(c, lap, rand, k).value.Completed? ==> Lap(c, lap, rand, k).value.time >= LapFloor(c)
  {
    DrivenAboveFloor(c, lap, rand, k);
    LapProperties(c, lap, rand, k);
  }

  /** One pass of the lap loop of `run_race_scenarios`: how lap `lap` ends
      and the draw counter after it. */
  method RunLap(c: RaceConfig, lap: int, rand: nat -> real, k0: nat) returns (end: LapEnd, k: nat)
    requires c.overrideSpeed != Some(0.0) && 1 <= lap <= c.numLaps
    ensures Drawn(end, k) == Lap(c, lap, rand, k0)
  {
    k := k0;
    var lapTime: real;
    if c.overrideSpeed.Some? {
      lapTime := c.circuitLength * 3600.0 / c.overrideSpeed.value;
    } else {
      var weather := WeatherPenalty(c, rand, k);
      k := weather.next;
      lapTime := BaseLapTime(c);
      lapTime := lapTime + weather.value;
      lapTime := lapTime + TireDegradation(lap, c);
      lapTime := lapTime + FuelPenalty(lap, c);
      lapTime := lapTime + EngineModeFactor(c.enginePowerMode);
    }
    var errorRoll := rand(k);
    k := k + 1;
    if errorRoll < DriverErrorProb(c) {
      lapTime := lapTime + Uniform(0.3, 2.5, rand(k));
      k := k + 1;
    }
    var failed := ReliabilityFailure(c, rand, k);
    k := k + 1;
    if failed {
      return Failed, k;
    }
    var events := SessionEvent(c, lap, rand, k);
    k := events.next;
    if events.value.safetyCar {
      lapTime := lapTime + 8.0;
    }
    if events.value.vsc {
      lapTime := lapTime + 4.0;
    }
    if events.value.redFlag {
      return Stopped, k;
    }
    end := Completed(lapTime);
  }

  /** What a scenario's recorded laps satisfy: every lap at least the floor
      when that applies, and every lap the override lap time plus a
      surcharge when an override speed is set and the draws are unit. */
  ghost predicate LapsWithinModel(c: RaceConfig, rand: nat -> real, laps: seq<Option<real>>)
    requires c.overrideSpeed != Some(0.0)
  {
    && (FloorApplies(c, rand) ==> AboveFloor(laps, LapFloor(c)))
    && (UnitDraws(rand) && c.overrideSpeed.Some? ==>
          forall i :: 0 <= i < |laps| ==> laps[i].Some? ==> Surcharge(laps[i].value - LapFloor(c)))
  }

  /** The rest of a scenario, from lap `lap` with `lap - 1` laps recorded,
      ends in one of the three shapes, and its laps stay within the model. */
  lemma {:induction false} ScenarioFromProperties(c: RaceConfig, lap: int, rand: nat -> real, k: nat,
                                                  lapTimes: seq<Option<real>>)
    requires c.overrideSpeed != Some(0.0) && 1 <= lap <= (if c.numLaps > 0 then c.numLaps + 1 else 1)
    requires |lapTimes| == lap - 1 && AllSome(lapTimes)
    requires LapsWithinModel(c, rand, lapTimes)
    ensures ScenarioShape(ScenarioFrom(c, lap, rand, k, lapTimes).0, c.numLaps)
    ensures LapsWithinModel(c, rand, ScenarioFrom(c, lap, rand, k, lapTimes).0.lapTimes)
    decreases c.numLaps - lap
  {
    if lap <= c.numLaps {
      var l := Lap(c, lap, rand, k);
      LapProperties(c, lap, rand, k);
      if FloorApplies(c, rand) {
        CompletedAboveFloor(c, lap, rand, k);
      }
      match l.value
      case Failed =>
        assert (lapTimes + [None])[..lap - 1] == lapTimes;
        LapsExtended(c, rand, lapTimes, None);
      case Stopped =>
      case Completed(t) =>
        LapsExtended(c, rand, lapTimes, Some(t));
        ScenarioFromProperties(c, lap + 1, rand, l.next, lapTimes + [Some(t)]);
    }
  }

  /** Recording a lap that failed, or one that keeps to the floor and to the
      override's surcharge, keeps the recorded laps within the model. */
  lemma LapsExtended(c: RaceConfig, rand: nat -> real, lapTimes: seq<Option<real>>, t: Option<real>)
    requires c.overrideSpeed != Some(0.0) && LapsWithinModel(c, rand, lapTimes)
    requires FloorApplies(c, rand) && t.Some? ==> t.value >= LapFloor(c)
    requires UnitDraws(rand) && c.overrideSpeed.Some? && t.Some? ==> Surcharge(t.value - LapFloor(c))
    ensures LapsWithinModel(c, rand, lapTimes + [t])
  {
    var laps := lapTimes + [t];
    assert forall i :: 0 <= i < |lapTimes| ==> laps[i] == lapTimes[i];
  }

  /** One scenario of `run_race_scenarios`: laps 1..numLaps until a
      reliability failure or a red flag. */
  method RunScenario(c: RaceConfig, rand: nat -> real, k0: nat) returns (r: ScenarioResult, k: nat)
    requires c.overrideSpeed != Some(0.0)
    ensures (r, k) == Scenario(c, rand, k0)
    ensures ScenarioShape(r, c.numLaps)
    ensures LapsWithinModel(c, rand, r.lapTimes)
  {
    var lapTimes: seq<Option<real>> := [];
    var status := Finished;
    k := k0;
    var lap := 1;
    while lap <= c.numLaps
      invariant 1 <= lap <= (if c.numLaps > 0 then c.numLaps + 1 else 1)
      invariant Scenario(c, rand, k0) == ScenarioFrom(c, lap, rand, k, lapTimes)
    {
      ghost var kLap, recorded := k, lapTimes;
      var end;
      end, k := RunLap(c, lap, rand, k);
      if end.Failed? {
        lapTimes := lapTimes + [None];
        status := Dnf(lap);
        assert ScenarioFrom(c, lap, rand, kLap, recorded) == (ScenarioResult(lapTimes, status), k);
        break;
      }
      if end.Stopped? {
        status := RedFlagStop(lap);
        assert ScenarioFrom(c, lap, rand, kLap, recorded) == (ScenarioResult(lapTimes, status), k);
        break;
      }
      lapTimes := lapTimes + [Some(end.time)];
      lap := lap + 1;
    }
    r := ScenarioResult(lapTimes, status);
    assert (r, k) == Scenario(c, rand, k0);
    ScenarioFromProperties(c, 1, rand, k0, []);
  }

  /** The draw counter after `n` runs of `step` chained from `k0`, each
      starting where the previous one stopped. */
  function ChainStart<R>(step: nat -> (R, nat), k0: nat, n: nat): nat
  {
    if n == 0 then k0 else step(ChainStart(step, k0, n - 1)).1
  }

  /** The results of `n` runs of `step` chained from `k0`. */
  function Chain<R>(step: nat -> (R, nat), k0: nat, n: nat): (rs: seq<R>)
    ensures |rs| == n
  {
    if n == 0 then [] else Chain(step, k0, n - 1) + [step(ChainStart(step, k0, n - 1)).0]
  }

  /** Run `i` of a chain is `step` from where run `i - 1` stopped. */
  lemma {:induction false} ChainAt<R>(step: nat -> (R, nat), k0: nat, n: nat)
    ensures forall i :: 0 <= i < n ==> Chain(step, k0, n)[i] == step(ChainStart(step, k0, i)).0
  {
    if n > 0 {
      ChainAt(step, k0, n - 1);
      var prefix, rs := Chain(step, k0, n - 1), Chain(step, k0, n);
      forall i | 0 <= i < n - 1
        ensures rs[i] == prefix[i]
      {
      }
    }
  }

  /** One scenario as a step of the random stream. */
  function ScenarioRun(c: RaceConfig, rand: nat -> real): nat -> (ScenarioResult, nat)
    requires c.overrideSpeed != Some(0.0)
  {
    k => Scenario(c, rand, k)
  }

  /** The draw counter where scenario `i` starts when scenario 0 starts at
      `k0`: each scenario continues the stream where the previous stopped. */
  function ScenarioStart(c: RaceConfig, i: nat, rand: nat -> real, k0: nat): nat
    requires c.overrideSpeed != Some(0.0)
  {
    ChainStart(ScenarioRun(c, rand), k0, i)
  }

  /** `r` is scenario `i` of a run whose first scenario starts at `k0`. */
  ghost predicate NthScenario(c: RaceConfig, rand: nat -> real, k0: nat, i: nat, r: ScenarioResult)
    requires c.overrideSpeed != Some(0.0)
  {
    r == Scenario(c, rand, ScenarioStart(c, i, rand, k0)).0 && LapsWithinModel(c, rand, r.lapTimes)
  }

  /** The first `n` scenarios of a run whose first scenario starts at
      `k0`, each continuing the random stream where the previous stopped. */
  function Scenarios(c: RaceConfig, rand: nat -> real, k0: nat, n: nat): (rs: seq<ScenarioResult>)
    requires c.overrideSpeed != Some(0.0)
    ensures |rs| == n
  {
    Chain(ScenarioRun(c, rand), k0, n)
  }

  /** Each of the first `n` scenarios has one of the three shapes, sits in
      its place in the stream, and keeps its laps within the model. */
  lemma ScenariosEach(c: RaceConfig, rand: nat -> real, k0: nat, n: nat)
    requires c.overrideSpeed != Some(0.0)
    ensures forall i :: 0 <= i < n ==> ScenarioShape(Scenarios(c, rand, k0, n)[i], c.numLaps)
    ensures forall i :: 0 <= i < n ==> NthScenario(c, rand, k0, i, Scenarios(c, rand, k0, n)[i])
  {
    ChainAt(ScenarioRun(c, rand), k0, n);
    forall i | 0 <= i < n
      ensures ScenarioShape(Scenarios(c, rand, k0, n)[i], c.numLaps)
      ensures NthScenario(c, rand, k0, i, Scenarios(c, rand, k0, n)[i])
    {
      assert Scenarios(c, rand, k0, n)[i] == Scenario(c, rand, ScenarioStart(c, i, rand, k0)).0;
      ScenarioFromProperties(c, 1, rand, ScenarioStart(c, i, rand, k0), []);
    }
  }

  /** The loop of `run_race_scenarios` for a configuration whose laps can
      be driven: `count` scenarios, each continuing the random stream where
      the previous one stopped. */
  method RunScenarios(c: RaceConfig, count: nat, rand: nat -> real, k0: nat)
    returns (results: seq<ScenarioResult>, k: nat)
    requires c.overrideSpeed != Some(0.0)
    ensures results == Scenarios(c, rand, k0, count)
    ensures forall i :: 0 <= i < count ==> ScenarioShape(results[i], c.numLaps)
    ensures forall i :: 0 <= i < count ==> NthScenario(c, rand, k0, i, results[i])
    ensures k == ScenarioStart(c, count, rand, k0)
  {
    results := [];
    k := k0;
    while |results| < count
      invariant |results| <= count
      invariant results == Scenarios(c, rand, k0, |results|)
      invariant k == ScenarioStart(c, |results|, rand, k0)
    {
      ghost var kBefore := k;
      var r;
      r, k := RunScenario(c, rand, k);
      ScenarioStep(c, rand, k0, results, kBefore, r, k);
      results := results + [r];
    }
    ScenariosEach(c, rand, k0, count);
  }

  /** The scenario that starts where the first `|results|` stopped is the
      next one, and it stops where the next one starts. */
  lemma ScenarioStep(c: RaceConfig, rand: nat -> real, k0: nat, results: seq<ScenarioResult>, kBefore: nat,
                     r: ScenarioResult, k: nat)
    requires c.overrideSpeed != Some(0.0)
    requires results == Scenarios(c, rand, k0, |results|) && kBefore == ScenarioStart(c, |results|, rand, k0)
    requires (r, k) == Scenario(c, rand, kBefore)
    ensures results + [r] == Scenarios(c, rand, k0, |results + [r]|)
    ensures k == ScenarioStart(c, |results + [r]|, rand, k0)
  {
    var n := |results|;
    assert |results + [r]| == n + 1;
    assert ScenarioRun(c, rand)(kBefore) == (r, k);
  }

  /** `run_race_scenarios`: `nScenarios` scenarios drawn one after another
      from one random stream. An override speed of zero makes the lap time
      a division by zero as soon as one lap is driven; that error is
      returned. With an override speed of zero and no lap to drive, every
      scenario finishes with no lap and no draw. */
  method RunRaceScenarios(c: RaceConfig, nScenarios: int, rand: nat -> real, k0: nat)
    returns (result: Result<seq<ScenarioResult>, string>, k: nat)
    ensures result.Failure? <==> c.overrideSpeed == Some(0.0) && c.numLaps >= 1 && nScenarios >= 1
    ensures result.Failure? ==> k == k0
    ensures result.Success? ==> |result.value| == (if nScenarios > 0 then nScenarios else 0)
    ensures result.Success? ==> forall i :: 0 <= i < |result.value| ==> ScenarioShape(result.value[i], c.numLaps)
    ensures result.Success? && c.overrideSpeed != Some(0.0) ==>
      && (forall i :: 0 <= i < |result.value| ==> NthScenario(c, rand, k0, i, result.value[i]))
      && k == ScenarioStart(c, |result.value|, rand, k0)
    ensures result.Success? && c.overrideSpeed == Some(0.0) ==>
      k == k0 && forall i :: 0 <= i < |result.value| ==> result.value[i] == ScenarioResult([], Finished)
  {
    var count := if nScenarios > 0 then nScenarios else 0;
    if c.overrideSpeed == Some(0.0) {
      k := k0;
      if c.numLaps >= 1 && count >= 1 {
        return Failure("division by zero"), k;
      }
      // no lap is driven, so the division is never reached and nothing is drawn
      result := Success(seq(count, _ => ScenarioResult([], Finished)));
    } else {
      var results;
      results, k := RunScenarios(c, count, rand, k0);
      result := Success(results);
    }
  }

  // ---------------------------------------------------------------------
  // Result analysis

  datatype Analysis = Analysis(winProbability: real, avgLapTime: Option<real>, fastestLap: Option<real>)

  function FinishedCount(results: seq<ScenarioResult>): nat
  {
    if |results| == 0 then 0
    else FinishedCount(results[..|results| - 1]) + (if results[|results| - 1].status == Finished then 1 else 0)
  }

  /** The recorded lap times of one scenario, skipping DNF entries. */
  function PresentLaps(laps: seq<Option<real>>): seq<real>
  {
    if |laps| == 0 then []
    else PresentLaps(laps[..|laps| - 1]) + (if laps[|laps| - 1].Some? then [laps[|laps| - 1].value] else [])
  }

  /** All recorded lap times, scenario by scenario. */
  function ValidLaps(results: seq<ScenarioResult>): seq<real>
  {
    if |results| == 0 then []
    else ValidLaps(results[..|results| - 1]) + PresentLaps(results[|results| - 1].lapTimes)
  }

  /** `analyze_results`: the share of finished scenarios, and the mean and
      minimum of all recorded laps (absent when there is none). No
      scenarios make the share a division by zero; that error is returned. */
  function AnalyzeResults(results: seq<ScenarioResult>): (r: Result<Analysis, string>)
    ensures r.Failure? <==> |results| == 0
    ensures r.Success? ==>
      && r.value.winProbability == (FinishedCount(results) as real) / (|results| as real)
      && (r.value.avgLapTime.None? <==> |ValidLaps(results)| == 0)
      && (r.value.fastestLap.None? <==> |ValidLaps(results)| == 0)
  {
    if |results| == 0 then Failure("division by zero")
    else
      var laps := ValidLaps(results);
      Success(Analysis(
        (FinishedCount(results) as real) / (|results| as real),
        if |laps| > 0 then Some(Stats.Mean(laps)) else None,
        if |laps| > 0 then Some(Stats.Min(laps)) else None))
  }

  lemma {:induction false} FinishedCountBound(results: seq<ScenarioResult>)
    ensures FinishedCount(results) <= |results|
    ensures FinishedCount(results) == |results| <==> forall i :: 0 <= i < |results| ==> results[i].status == Finished
  {
    if |results| > 0 {
      var init := results[..|results| - 1];
      FinishedCountBound(init);
      assert forall i :: 0 <= i < |init| ==> init[i] == results[i];
    }
  }

  /** The win probability is a probability, and it is 1 exactly when every
      scenario finished. */
  lemma WinProbabilityBounds(results: seq<ScenarioResult>)
    requires |results| > 0
    ensures 0.0 <= AnalyzeResults(results).value.winProbability <= 1.0
    ensures AnalyzeResults(results).value.winProbability == 1.0 <==>
      forall i :: 0 <= i < |results| ==> results[i].status == Finished
  {
    FinishedCountBound(results);
    var n := |results| as real;
    var f := FinishedCount(results) as real;
    Stats.DivBounds(f, n, 0.0, 1.0);
    assert f / n == 1.0 <==> f == n by {
      assert f / n * n == f;
    }
  }

  /** The fastest lap is a recorded lap no slower than any other, and no
      slower than the mean. */
  lemma FastestLapProperties(results: seq<ScenarioResult>)
    requires |results| > 0
    ensures var a := AnalyzeResults(results).value;
      a.fastestLap.Some? ==>
        && a.fastestLap.value in ValidLaps(results)
        && (forall x :: x in ValidLaps(results) ==> a.fastestLap.value <= x)
        && a.fastestLap.value <= a.avgLapTime.value
  {
    var laps := ValidLaps(results);
    if |laps| > 0 {
      Stats.MeanBetweenMinAndMax(laps);
    }
  }

  lemma {:induction false} PresentLapsAboveFloor(laps: seq<Option<real>>, floor: real)
    requires AboveFloor(laps, floor)
    ensures forall x :: x in PresentLaps(laps) ==> x >= floor
  {
    if |laps| > 0 {
      PresentLapsAboveFloor(laps[..|laps| - 1], floor);
    }
  }

  lemma {:induction false} ValidLapsAboveFloor(results: seq<ScenarioResult>, floor: real)
    requires forall i :: 0 <= i < |results| ==> AboveFloor(results[i].lapTimes, floor)
    ensures forall x :: x in ValidLaps(results) ==> x >= floor
  {
    if |results| > 0 {
      ValidLapsAboveFloor(results[..|results| - 1], floor);
      PresentLapsAboveFloor(results[|results| - 1].lapTimes, floor);
    }
  }

  /** Simulated results analysed: the fastest lap is never below the
      configuration's lap floor. */
  lemma FastestLapAboveFloor(c: RaceConfig, results: seq<ScenarioResult>)
    requires |results| > 0 && c.overrideSpeed != Some(0.0)
    requires forall i :: 0 <= i < |results| ==> AboveFloor(results[i].lapTimes, LapFloor(c))
    ensures AnalyzeResults(results).value.fastestLap.Some? ==>
      AnalyzeResults(results).value.fastestLap.value >= LapFloor(c)
  {
    ValidLapsAboveFloor(results, LapFloor(c));
  }

  // ---------------------------------------------------------------------
  // Properties of the lap-time model

  /** The defaults: a 52-lap race on the 5.89 km reference circuit gives an
      86 s base lap, the error probability sits at its 1 % floor, Push mode
      gains 0.35 s and soft tyres lose 0.1 s per lap. */
  lemma DefaultConfiguration()
    ensures var c := NewRaceConfig(NoArgs);
      && c.numLaps == 52
      && BaseLapTime(c) == 86.0
      && DriverErrorProb(c) == 0.01
      && EngineModeFactor(c.enginePowerMode) == -0.35
      && CompoundRate(c.tireCompound) == 0.10
      && LapFloor(c) == 85.65
  {
  }

  /** Tyre degradation grows with every lap. */
  lemma TireDegradationIncreasing(lap1: int, lap2: int, c: RaceConfig)
    requires lap1 < lap2
    ensures TireDegradation(lap1, c) < TireDegradation(lap2, c)
  {
    var rate := CompoundRate(c.tireCompound);
    assert TireDegradation(lap2, c) - TireDegradation(lap1, c) == ((lap2 - lap1) as real) * rate;
    MulPositive((lap2 - lap1) as real, rate);
  }

  /** The fuel penalty is the full load's 0.016 s/kg at the start, falls as
      fuel burns, and is zero on the final lap. */
  lemma FuelPenaltyProfile(c: RaceConfig, lap1: int, lap2: int)
    requires c.numLaps > 0 && c.fuelLoad > 0.0 && lap1 < lap2
    ensures FuelPenalty(0, c) == c.fuelLoad * 0.016
    ensures FuelPenalty(c.numLaps, c) == 0.0
    ensures FuelPenalty(lap2, c) < FuelPenalty(lap1, c)
  {
    var n := c.numLaps as real;
    var q1, q2 := (lap1 as real) / n, (lap2 as real) / n;
    assert q1 * n == lap1 as real && q2 * n == lap2 as real;
    assert q1 < q2;
    MulPositive(c.fuelLoad, q2 - q1);
    assert FuelPenalty(lap1, c) - FuelPenalty(lap2, c) == c.fuelLoad * (q2 - q1) * 0.016;
  }

  /** A perfectly reliable car never fails. */
  lemma PerfectReliabilityNeverFails(c: RaceConfig, rand: nat -> real, k: nat)
    requires UnitDraws(rand) && c.reliabilityScore >= 1.0
    ensures !ReliabilityFailure(c, rand, k)
  {
  }
}
