/** The playback server: the WebSocket connection list, the scenario data
    endpoint, and the playback state that client messages drive and the
    broadcast loop advances every 50 ms. The scenarios are the pre-generated
    `RACE_SCENARIOS`, passed in as a sequence; sockets are opaque handles. */
module Playback {
  import opened Wrappers
  import opened RaceData

  // ------------------------------------------------------------ connections

  /** An open WebSocket, known only by its identity. */
  type Connection = nat

  /** Python's `list.remove(x)`: the list without the first occurrence of
      `x`; a list without `x` is returned as it is (the source raises
      `ValueError` there, which `Disconnect` reports). */
  function RemoveFirst(s: seq<Connection>, x: Connection): (r: seq<Connection>)
    ensures x in s ==> |r| == |s| - 1 && multiset(r) == multiset(s) - multiset{x}
    ensures x !in s ==> r == s
  {
    if |s| == 0 then s
    else
      assert s == [s[0]] + s[1..];
      if s[0] == x then s[1..] else [s[0]] + RemoveFirst(s[1..], x)
  }

  /** Everything before the first occurrence is kept in order; only that
      occurrence goes. */
  lemma {:induction false} RemoveFirstKeepsOrder(s: seq<Connection>, x: Connection, i: nat)
    requires i < |s| && s[i] == x && x !in s[..i]
    ensures RemoveFirst(s, x) == s[..i] + s[i + 1..]
  {
    if i > 0 {
      assert s[0] != x by { assert s[0] in s[..i]; }
      assert x !in s[1..][..i - 1] by { assert s[1..][..i - 1] == s[1..i]; }
      RemoveFirstKeepsOrder(s[1..], x, i - 1);
      assert s[..i] == [s[0]] + s[1..][..i - 1];
    }
  }

  /** A connection that connects and then disconnects leaves the set of
      open connections (with multiplicity) as it was. */
  lemma ConnectThenDisconnect(s: seq<Connection>, ws: Connection)
    ensures multiset(RemoveFirst(s + [ws], ws)) == multiset(s)
  {
    assert ws in s + [ws];
  }

  class ConnectionManager {
    var activeConnections: seq<Connection>

    constructor ()
      ensures activeConnections == []
    {
      activeConnections := [];
    }

    /** `connect`: the accepted socket joins the end of the list. */
    method Connect(ws: Connection)
      modifies this
      ensures activeConnections == old(activeConnections) + [ws]
    {
      activeConnections := activeConnections + [ws];
    }

    /** `disconnect`: the first occurrence of the socket leaves the list; a
        socket that is not in the list is a `ValueError` and nothing changes. */
    method Disconnect(ws: Connection) returns (r: Result<(), string>)
      modifies this
      ensures ws in old(activeConnections) ==>
                r.Success? && activeConnections == RemoveFirst(old(activeConnections), ws)
      ensures ws !in old(activeConnections) ==>
                r == Failure("ValueError") && activeConnections == old(activeConnections)
    {
      if ws !in activeConnections {
        return Failure("ValueError");
      }
      activeConnections := RemoveFirst(activeConnections, ws);
      r := Success(());
    }
  }

  // ------------------------------------------------------------ scenario data

  /** The body of a successful `/data/scenario/{id}` reply; `track` is the
      track file's JSON, or `None` for the empty object sent when the file
      is missing. */
  datatype ScenarioData<J> = ScenarioData(
    scenarioId: int, numDrivers: int, numLaps: int, aggressionFactor: real,
    drivers: seq<string>, track: Option<J>, raceData: map<string, seq<TelemetryPoint>>)

  datatype ErrorReply = ErrorReply(status: int, error: string)

  /** `get_scenario_data`: a 404 error exactly when the id is out of range,
      otherwise the scenario's fields and the track file's contents. */
  function GetScenarioData<J>(scenarios: seq<Scenario>, id: int, trackFile: Option<J>)
    : (r: Result<ScenarioData<J>, ErrorReply>)
    ensures r.Failure? <==> id < 0 || id >= |scenarios|
    ensures r.Failure? ==> r.error == ErrorReply(404, "Scenario not found")
    ensures r.Success? ==>
              var sc := scenarios[id];
              r.value.scenarioId == sc.scenarioId && r.value.numDrivers == sc.numDrivers &&
              r.value.numLaps == sc.numLaps && r.value.aggressionFactor == sc.aggressionFactor &&
              r.value.drivers == sc.drivers && r.value.raceData == sc.raceData && r.value.track == trackFile
  {
    if id < 0 || id >= |scenarios| then Failure(ErrorReply(404, "Scenario not found"))
    else
      var sc := scenarios[id];
      Success(ScenarioData(sc.scenarioId, sc.numDrivers, sc.numLaps, sc.aggressionFactor,
                           sc.drivers, trackFile, sc.raceData))
  }

  // ------------------------------------------------------------ scenario duration

  /** Python's `max(a, b)`: `a` unless `b` is larger. */
  function PyMax(a: real, b: real): (m: real)
    ensures a <= m && b <= m && (m == a || m == b)
  {
    if b > a then b else a
  }

  /** Every listed driver has telemetry in the scenario. */
  predicate HasTelemetry(sc: Scenario, ds: seq<string>)
  {
    forall d :: d in ds ==> d in sc.raceData
  }

  /** The duration the drivers `ds` span: the largest time of the last sample
      of each non-empty telemetry, starting from 0.0. */
  function MaxLastTime(sc: Scenario, ds: seq<string>): real
    requires HasTelemetry(sc, ds)
  {
    if |ds| == 0 then 0.0
    else
      assert forall d :: d in ds[..|ds| - 1] ==> d in ds;
      var m := MaxLastTime(sc, ds[..|ds| - 1]);
      var tel := sc.raceData[ds[|ds| - 1]];
      if |tel| > 0 then PyMax(m, tel[|tel| - 1].time) else m
  }

  /** Taking one more driver into account. */
  lemma MaxLastTimeStep(sc: Scenario, ds: seq<string>, n: nat)
    requires HasTelemetry(sc, ds) && n < |ds|
    ensures HasTelemetry(sc, ds[..n]) && HasTelemetry(sc, ds[..n + 1])
    ensures var tel := sc.raceData[ds[n]];
            MaxLastTime(sc, ds[..n + 1]) ==
              if |tel| > 0 then PyMax(MaxLastTime(sc, ds[..n]), tel[|tel| - 1].time) else MaxLastTime(sc, ds[..n])
  {
    assert forall d :: d in ds[..n + 1] ==> d in ds;
    assert forall d :: d in ds[..n] ==> d in ds;
    assert ds[..n + 1][..n] == ds[..n];
  }

  /** The duration is never negative, no driver's telemetry ends after it,
      and it is 0.0 or the end time of some driver's telemetry. */
  lemma {:induction false} MaxLastTimeIsMaximum(sc: Scenario, ds: seq<string>)
    requires HasTelemetry(sc, ds)
    ensures 0.0 <= MaxLastTime(sc, ds)
    ensures forall i :: 0 <= i < |ds| && |sc.raceData[ds[i]]| > 0 ==>
              sc.raceData[ds[i]][|sc.raceData[ds[i]]| - 1].time <= MaxLastTime(sc, ds)
    ensures MaxLastTime(sc, ds) == 0.0 ||
            exists i :: 0 <= i < |ds| && |sc.raceData[ds[i]]| > 0 &&
              sc.raceData[ds[i]][|sc.raceData[ds[i]]| - 1].time == MaxLastTime(sc, ds)
  {
    if |ds| > 0 {
      var init := ds[..|ds| - 1];
      assert forall d :: d in init ==> d in ds;
      MaxLastTimeIsMaximum(sc, init);
      var m := MaxLastTime(sc, init);
      var last := |ds| - 1;
      forall i | 0 <= i < last && |sc.raceData[ds[i]]| > 0
        ensures sc.raceData[ds[i]][|sc.raceData[ds[i]]| - 1].time <= MaxLastTime(sc, ds)
      {
        assert ds[i] == init[i];
      }
      if MaxLastTime(sc, ds) != m {
        assert sc.raceData[ds[last]][|sc.raceData[ds[last]]| - 1].time == MaxLastTime(sc, ds);
      } else if m != 0.0 {
        var i :| 0 <= i < |init| && |sc.raceData[init[i]]| > 0 &&
                 sc.raceData[init[i]][|sc.raceData[init[i]]| - 1].time == m;
        assert ds[i] == init[i];
      }
    }
  }

  // ------------------------------------------------------------ playback

  /** A client message; every key may be missing. */
  datatype Message = Message(msgType: Option<string>, scenarioId: Option<int>, time: Option<real>, speed: Option<real>)

  /** The reply sent back to the client that sent a message. */
  datatype Reply =
    | ScenarioSelected(scenarioId: int, maxTime: real)
    | Playing
    | Paused
    | Seeked(time: real)
    | SpeedChanged(speed: real)

  /** One broadcast frame: the race snapshot at the playback time plus the
      playback metadata. */
  datatype Frame = Frame(
    snapshot: RaceSnapshot, scenarioId: int, isPlaying: bool, maxTime: real, playbackSpeed: real)

  /** Every scenario can be looked up: each driver has telemetry and a profile. */
  predicate AllWellFormed(scenarios: seq<Scenario>)
  {
    forall i :: 0 <= i < |scenarios| ==> WellFormed(scenarios[i])
  }

  /** The time one broadcast step adds: 50 ms scaled by the playback speed. */
  function StepTime(speed: real): real
  {
    0.05 * speed
  }

  /** The clock and playing flag after one broadcast step while playing:
      the clock moves one step, or, when that reaches the duration, stops
      at the duration with playback stopped. */
  function Advance(t: real, speed: real, maxTime: real): (r: (real, bool))
    ensures r.0 <= maxTime
    ensures r.1 <==> t + StepTime(speed) < maxTime
    ensures r.1 ==> r.0 == t + StepTime(speed)
    ensures !r.1 ==> r.0 == maxTime
  {
    var next := t + StepTime(speed);
    if next >= maxTime then (maxTime, false) else (next, true)
  }

  /** The clock and playing flag after `n` broadcast steps from a playing
      state at time `t`, with no message in between. */
  function Play(t: real, speed: real, maxTime: real, n: nat): (real, bool)
    decreases n
  {
    if n == 0 then (t, true)
    else
      var r := Advance(t, speed, maxTime);
      if r.1 then Play(r.0, speed, maxTime, n - 1) else r
  }

  /** At a positive speed, playback that runs long enough to cover the
      remaining time ends exactly at the duration, stopped. */
  lemma {:induction false} PlaybackReachesEnd(t: real, speed: real, maxTime: real, n: nat)
    requires speed > 0.0 && n >= 1 && (n as real) * StepTime(speed) >= maxTime - t
    ensures Play(t, speed, maxTime, n) == (maxTime, false)
    decreases n
  {
    var r := Advance(t, speed, maxTime);
    if r.1 {
      assert ((n - 1) as real) * StepTime(speed) >= maxTime - r.0;
      PlaybackReachesEnd(r.0, speed, maxTime, n - 1);
    }
  }

  class PlaybackState {
    var scenarioId: int
    var currentTime: real
    var isPlaying: bool
    var playbackSpeed: real
    var maxTime: real

    /** The selected scenario exists whenever there are scenarios. */
    predicate Valid(scenarios: seq<Scenario>)
      reads this
    {
      0 <= scenarioId && (|scenarios| > 0 ==> scenarioId < |scenarios|)
    }

    constructor ()
      ensures scenarioId == 0 && currentTime == 0.0 && !isPlaying && playbackSpeed == 1.0 && maxTime == 0.0
      ensures forall scenarios: seq<Scenario> :: Valid(scenarios)
    {
      scenarioId := 0;
      currentTime := 0.0;
      isPlaying := false;
      playbackSpeed := 1.0;
      maxTime := 0.0;
    }

    /** `get_max_time`: the largest end time over the selected scenario's
        drivers, skipping drivers without samples; 0.0 when there are none. */
    method GetMaxTime(scenarios: seq<Scenario>) returns (m: real)
      requires 0 <= scenarioId < |scenarios| && WellFormed(scenarios[scenarioId])
      ensures m == MaxLastTime(scenarios[scenarioId], scenarios[scenarioId].drivers)
    {
      var sc := scenarios[scenarioId];
      m := 0.0;
      for di := 0 to |sc.drivers|
        invariant HasTelemetry(sc, sc.drivers[..di])
        invariant m == MaxLastTime(sc, sc.drivers[..di])
      {
        MaxLastTimeStep(sc, sc.drivers, di);
        var telemetry := sc.raceData[sc.drivers[di]];
        if |telemetry| > 0 {
          m := PyMax(m, telemetry[|telemetry| - 1].time);
        }
      }
      assert sc.drivers[..|sc.drivers|] == sc.drivers;
    }

    /** One message of the WebSocket handler. SELECT_SCENARIO (id 0 when
        missing) with an id in range selects that scenario from its start,
        paused, with its duration; PLAY and PAUSE start and stop playback;
        SEEK (0.0 when missing) and SET_SPEED (1.0 when missing) store the
        value as given. Each of these is acknowledged; an out-of-range id, a
        missing or an unknown type changes nothing and gets no reply. */
    method Handle(msg: Message, scenarios: seq<Scenario>) returns (reply: Option<Reply>)
      requires AllWellFormed(scenarios) && Valid(scenarios)
      modifies this
      ensures Valid(scenarios)
      ensures msg.msgType == Some("SELECT_SCENARIO") ==>
                var id := msg.scenarioId.GetOr(0);
                if 0 <= id < |scenarios| then
                  scenarioId == id && currentTime == 0.0 && !isPlaying && playbackSpeed == old(playbackSpeed) &&
                  maxTime == MaxLastTime(scenarios[id], scenarios[id].drivers) &&
                  reply == Some(ScenarioSelected(id, maxTime))
                else
                  unchanged(this) && reply.None?
      ensures msg.msgType == Some("PLAY") ==>
                isPlaying && reply == Some(Playing) && scenarioId == old(scenarioId) &&
                currentTime == old(currentTime) && playbackSpeed == old(playbackSpeed) && maxTime == old(maxTime)
      ensures msg.msgType == Some("PAUSE") ==>
                !isPlaying && reply == Some(Paused) && scenarioId == old(scenarioId) &&
                currentTime == old(currentTime) && playbackSpeed == old(playbackSpeed) && maxTime == old(maxTime)
      ensures msg.msgType == Some("SEEK") ==>
                currentTime == msg.time.GetOr(0.0) && reply == Some(Seeked(currentTime)) &&
                scenarioId == old(scenarioId) && isPlaying == old(isPlaying) &&
                playbackSpeed == old(playbackSpeed) && maxTime == old(maxTime)
      ensures msg.msgType == Some("SET_SPEED") ==>
                playbackSpeed == msg.speed.GetOr(1.0) && reply == Some(SpeedChanged(playbackSpeed)) &&
                scenarioId == old(scenarioId) && isPlaying == old(isPlaying) &&
                currentTime == old(currentTime) && maxTime == old(maxTime)
      ensures msg.msgType !in {Some("SELECT_SCENARIO"), Some("PLAY"), Some("PAUSE"), Some("SEEK"), Some("SET_SPEED")} ==>
                unchanged(this) && reply.None?
    {
      reply := None;
      var messageType := msg.msgType;
      if messageType == Some("SELECT_SCENARIO") {
        var id := msg.scenarioId.GetOr(0);
        if 0 <= id < |scenarios| {
          scenarioId := id;
          currentTime := 0.0;
          isPlaying := false;
          maxTime := GetMaxTime(scenarios);
          reply := Some(ScenarioSelected(id, maxTime));
        }
      } else if messageType == Some("PLAY") {
        isPlaying := true;
        reply := Some(Playing);
      } else if messageType == Some("PAUSE") {
        isPlaying := false;
        reply := Some(Paused);
      } else if messageType == Some("SEEK") {
        currentTime := msg.time.GetOr(0.0);
        reply := Some(Seeked(currentTime));
      } else if messageType == Some("SET_SPEED") {
        playbackSpeed := msg.speed.GetOr(1.0);
        reply := Some(SpeedChanged(playbackSpeed));
      }
    }

    /** One iteration of the broadcast loop. While playing (and when there
        are scenarios) the clock advances by `0.05 * speed`; reaching the
        duration clamps the clock to it and stops playback; the frame is the
        selected scenario's snapshot at the new time with the playback
        metadata. Otherwise nothing changes and nothing is sent. */
    method Tick(scenarios: seq<Scenario>) returns (frame: Option<Frame>)
      requires AllWellFormed(scenarios) && Valid(scenarios)
      modifies this
      ensures Valid(scenarios)
      ensures scenarioId == old(scenarioId) && playbackSpeed == old(playbackSpeed) && maxTime == old(maxTime)
      ensures !(old(isPlaying) && |scenarios| > 0) ==> unchanged(this) && frame.None?
      ensures old(isPlaying) && |scenarios| > 0 ==>
                (currentTime, isPlaying) == Advance(old(currentTime), playbackSpeed, maxTime) &&
                var sc := scenarios[scenarioId];
                frame == Some(Frame(RaceSnapshot(currentTime, SnapshotVehicles(sc, sc.drivers, currentTime)),
                                    scenarioId, isPlaying, maxTime, playbackSpeed))
    {
      frame := None;
      if isPlaying && |scenarios| > 0 {
        currentTime := currentTime + StepTime(playbackSpeed);
        if currentTime >= maxTime {
          currentTime := maxTime;
          isPlaying := false;
        }
        var snapshot := GetRaceSnapshot(scenarios[scenarioId], currentTime);
        frame := Some(Frame(snapshot, scenarioId, isPlaying, maxTime, playbackSpeed));
      }
    }
  }
}
