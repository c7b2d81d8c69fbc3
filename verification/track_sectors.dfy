/** Track sector analysis of the track fetcher: every point is classified by
    its speed against the track's mean speed, and each maximal run of equally
    classified points longer than ten points becomes a sector. The scan only
    emits a run when the next run starts, so the final run is never emitted. */
module TrackSectors {
  import opened Wrappers
  import opened Track
  import Stats

  datatype SectorType = Unknown | Straight | Corner | Medium

  datatype Sector = Sector(kind: SectorType, startIdx: nat, endIdx: nat, avgSpeed: real, length: real)

  /** Classification of one speed against the track's mean speed. */
  function Classify(speed: real, avg: real): (t: SectorType)
    ensures t == Straight <==> speed > avg * 1.2
    ensures t == Corner <==> speed <= avg * 1.2 && speed < avg * 0.7
    ensures t == Medium <==> avg * 0.7 <= speed <= avg * 1.2
  {
    if speed > avg * 1.2 then Straight
    else if speed < avg * 0.7 then Corner
    else Medium
  }

  predicate AllHaveSpeed(points: seq<TrackPoint>)
  {
    forall i :: 0 <= i < |points| ==> points[i].speed.Some?
  }

  function Speeds(points: seq<TrackPoint>): (s: seq<real>)
    requires AllHaveSpeed(points)
    ensures |s| == |points|
    ensures forall i :: 0 <= i < |points| ==> s[i] == points[i].speed.value
  {
    seq(|points|, i requires 0 <= i < |points| => points[i].speed.value)
  }

  function Distances(points: seq<TrackPoint>): (d: seq<real>)
    ensures |d| == |points|
    ensures forall i :: 0 <= i < |points| ==> d[i] == points[i].distance
  {
    seq(|points|, i requires 0 <= i < |points| => points[i].distance)
  }

  function Types(speeds: seq<real>, avg: real): (ts: seq<SectorType>)
    ensures |ts| == |speeds|
    ensures forall i :: 0 <= i < |speeds| ==> ts[i] == Classify(speeds[i], avg)
  {
    seq(|speeds|, i requires 0 <= i < |speeds| => Classify(speeds[i], avg))
  }

  /** End (exclusive) of the maximal run of equal types starting at `from`. */
  function RunEnd(types: seq<SectorType>, from: nat): (r: nat)
    requires from < |types|
    ensures from < r <= |types|
    ensures forall j :: from <= j < r ==> types[j] == types[from]
    ensures r < |types| ==> types[r] != types[from]
    decreases |types| - from
  {
    if from + 1 == |types| || types[from + 1] != types[from] then from + 1
    else RunEnd(types, from + 1)
  }

  /** The sectors of the runs from `from` on: every run that is followed by
      another run and is longer than ten points. */
  function SectorsFrom(types: seq<SectorType>, speeds: seq<real>, dists: seq<real>, from: nat): seq<Sector>
    requires |types| == |speeds| == |dists| && from <= |types|
    decreases |types| - from
  {
    if from == |types| then []
    else
      var e := RunEnd(types, from);
      if e == |types| then []
      else
        RunSector(types, speeds, dists, from, e) + SectorsFrom(types, speeds, dists, e)
  }

  /** The sector of the run [from, e): present when the run is longer than
      ten points. */
  function RunSector(types: seq<SectorType>, speeds: seq<real>, dists: seq<real>, from: nat, e: nat): seq<Sector>
    requires |types| == |speeds| == |dists| && from < e < |types|
  {
    if e - from > 10
    then [Sector(types[from], from, e, Stats.Mean(speeds[from..e]), dists[e] - dists[from])]
    else []
  }

  /** The sectors of a track whose points all carry a speed. */
  function TrackSectorsOf(points: seq<TrackPoint>): seq<Sector>
    requires AllHaveSpeed(points)
  {
    if |points| == 0 then []
    else
      var speeds := Speeds(points);
      SectorsFrom(Types(speeds, Stats.Mean(speeds)), speeds, Distances(points), 0)
  }

  /** The scan's state after the first `i` points: the sectors emitted so
      far and the current run's type, start and speeds. */
  datatype ScanState = ScanState(sectors: seq<Sector>, currentType: SectorType, currentStart: nat, currentSpeeds: seq<real>)

  function Scan(speeds: seq<real>, dists: seq<real>, avg: real, i: nat): (st: ScanState)
    requires |speeds| == |dists| && i <= |speeds|
    ensures st.currentStart <= i
  {
    if i == 0 then ScanState([], Unknown, 0, [])
    else ScanStep(Scan(speeds, dists, avg, i - 1), speeds, dists, avg, i - 1)
  }

  /** One point of the scan: a type change closes the current run (emitting
      it when it has more than ten speeds) and opens a new one. */
  function ScanStep(st: ScanState, speeds: seq<real>, dists: seq<real>, avg: real, i: nat): (r: ScanState)
    requires |speeds| == |dists| && st.currentStart <= i < |speeds|
    ensures r.currentStart <= i + 1
  {
    var t := Classify(speeds[i], avg);
    if t != st.currentType then
      var emitted :=
        if |st.currentSpeeds| > 10
        then [Sector(st.currentType, st.currentStart, i, Stats.Mean(st.currentSpeeds), dists[i] - dists[st.currentStart])]
        else [];
      ScanState(st.sectors + emitted, t, i, [speeds[i]])
    else
      ScanState(st.sectors, st.currentType, st.currentStart, st.currentSpeeds + [speeds[i]])
  }

  /** `analyze_track_sectors`: one pass over the points keeping the current
      run's type, start and speeds; it yields exactly the run-based sectors. */
  method AnalyzeTrackSectors(track: TrackData) returns (sectors: seq<Sector>)
    requires AllHaveSpeed(track.points)
    ensures sectors == TrackSectorsOf(track.points)
  {
    var points := track.points;
    if |points| == 0 {
      // the mean of no speeds is NaN, and the loop below never runs
      return [];
    }
    var speeds := Speeds(points);
    var avgSpeed := Stats.Mean(speeds);
    ghost var dists := Distances(points);
    sectors := [];
    var currentType := Unknown;
    var currentStart := 0;
    var currentSpeeds: seq<real> := [];
    for i := 0 to |points|
      invariant ScanState(sectors, currentType, currentStart, currentSpeeds) == Scan(speeds, dists, avgSpeed, i)
    {
      var speed := points[i].speed.value;
      var sectorType := Classify(speed, avgSpeed);
      if sectorType != currentType {
        if |currentSpeeds| > 10 {
          sectors := sectors + [Sector(currentType, currentStart, i, Stats.Mean(currentSpeeds),
                                       points[i].distance - points[currentStart].distance)];
        }
        currentType, currentStart, currentSpeeds := sectorType, i, [speed];
      } else {
        currentSpeeds := currentSpeeds + [speed];
      }
    }
    ScanCurrentRun(Types(speeds, avgSpeed), speeds, dists, avgSpeed, |points|);
    ScanFindsRuns(Types(speeds, avgSpeed), speeds, dists, avgSpeed, |points|);
    RunEndIs(Types(speeds, avgSpeed), currentStart, |points|);
  }

  /** After `i > 0` points the scan's current run is a run of equal types
      ending at `i`, and its speeds are the points' speeds. */
  lemma {:induction false} ScanCurrentRun(types: seq<SectorType>, speeds: seq<real>, dists: seq<real>, avg: real, i: nat)
    requires |speeds| == |dists| && types == Types(speeds, avg) && 0 < i <= |speeds|
    ensures Scan(speeds, dists, avg, i).currentStart < i
    ensures Scan(speeds, dists, avg, i).currentType == types[Scan(speeds, dists, avg, i).currentStart]
    ensures forall j :: Scan(speeds, dists, avg, i).currentStart <= j < i ==> types[j] == Scan(speeds, dists, avg, i).currentType
    ensures Scan(speeds, dists, avg, i).currentSpeeds == speeds[Scan(speeds, dists, avg, i).currentStart..i]
  {
    var k := i - 1;
    if k > 0 {
      ScanCurrentRun(types, speeds, dists, avg, k);
    }
    OpenRunStep(types, speeds, dists, avg, Scan(speeds, dists, avg, k), k);
  }

  /** One scan step extends the open run by a point of its type, or opens a
      new run at a point of another type. */
  lemma OpenRunStep(types: seq<SectorType>, speeds: seq<real>, dists: seq<real>, avg: real, st: ScanState, k: nat)
    requires |speeds| == |dists| && types == Types(speeds, avg) && k < |speeds|
    requires k == 0 ==> st.currentType == Unknown && st.currentStart == 0
    requires k > 0 ==>
      && st.currentStart < k && st.currentType == types[st.currentStart]
      && (forall j :: st.currentStart <= j < k ==> types[j] == st.currentType)
      && st.currentSpeeds == speeds[st.currentStart..k]
    ensures var r := ScanStep(st, speeds, dists, avg, k);
      && r.currentStart <= k && r.currentType == types[r.currentStart]
      && (forall j :: r.currentStart <= j < k + 1 ==> types[j] == r.currentType)
      && r.currentSpeeds == speeds[r.currentStart..k + 1]
  {
    if types[k] == st.currentType {
      assert speeds[st.currentStart..k + 1] == speeds[st.currentStart..k] + [speeds[k]];
    }
  }

  /** The sectors the scan has emitted after `i > 0` points, followed by the
      sectors from its current run on, are all the sectors. */
  lemma {:induction false} ScanFindsRuns(types: seq<SectorType>, speeds: seq<real>, dists: seq<real>, avg: real, i: nat)
    requires |speeds| == |dists| && types == Types(speeds, avg) && 0 < i <= |speeds|
    ensures Scan(speeds, dists, avg, i).sectors + SectorsFrom(types, speeds, dists, Scan(speeds, dists, avg, i).currentStart)
         == SectorsFrom(types, speeds, dists, 0)
  {
    var k := i - 1;
    if k > 0 {
      ScanFindsRuns(types, speeds, dists, avg, k);
      ScanCurrentRun(types, speeds, dists, avg, k);
      StepKeepsSectors(types, speeds, dists, avg, Scan(speeds, dists, avg, k), k);
    }
  }

  /** One scan step keeps "emitted sectors, then the sectors from the
      current run on, are all the sectors". */
  lemma StepKeepsSectors(types: seq<SectorType>, speeds: seq<real>, dists: seq<real>, avg: real, st: ScanState, k: nat)
    requires |types| == |speeds| == |dists| && st.currentStart < k < |speeds|
    requires types[k] == Classify(speeds[k], avg)
    requires st.currentType == types[st.currentStart]
    requires forall j :: st.currentStart <= j < k ==> types[j] == st.currentType
    requires st.currentSpeeds == speeds[st.currentStart..k]
    requires st.sectors + SectorsFrom(types, speeds, dists, st.currentStart) == SectorsFrom(types, speeds, dists, 0)
    ensures ScanStep(st, speeds, dists, avg, k).sectors +
              SectorsFrom(types, speeds, dists, ScanStep(st, speeds, dists, avg, k).currentStart)
            == SectorsFrom(types, speeds, dists, 0)
  {
    if types[k] != st.currentType {
      var next := ScanStep(st, speeds, dists, avg, k);
      var emitted := RunSector(types, speeds, dists, st.currentStart, k);
      var rest := SectorsFrom(types, speeds, dists, k);
      calc {
        next.sectors + SectorsFrom(types, speeds, dists, next.currentStart);
        { StepEmits(types, speeds, dists, avg, st, k); }
        (st.sectors + emitted) + rest;
        { ConcatAssoc(st.sectors, emitted, rest); }
        st.sectors + (emitted + rest);
        { CloseRun(types, speeds, dists, st.currentStart, k); }
        st.sectors + SectorsFrom(types, speeds, dists, st.currentStart);
      }
    } else {
      assert ScanStep(st, speeds, dists, avg, k).sectors == st.sectors;
      assert ScanStep(st, speeds, dists, avg, k).currentStart == st.currentStart;
    }
  }

  lemma ConcatAssoc<T>(a: seq<T>, b: seq<T>, c: seq<T>)
    ensures (a + b) + c == a + (b + c)
  {
  }

  /** At a type change the scan emits exactly the closed run's sector. */
  lemma StepEmits(types: seq<SectorType>, speeds: seq<real>, dists: seq<real>, avg: real, st: ScanState, k: nat)
    requires |types| == |speeds| == |dists| && st.currentStart < k < |speeds|
    requires types[k] == Classify(speeds[k], avg) && types[k] != st.currentType
    requires st.currentType == types[st.currentStart]
    requires st.currentSpeeds == speeds[st.currentStart..k]
    ensures ScanStep(st, speeds, dists, avg, k).sectors == st.sectors + RunSector(types, speeds, dists, st.currentStart, k)
    ensures ScanStep(st, speeds, dists, avg, k).currentStart == k
  {
  }

  /** Closing the run [from, e) at a type change appends its sector, if it
      is long enough, and leaves the sectors from `e` on to come. */
  lemma CloseRun(types: seq<SectorType>, speeds: seq<real>, dists: seq<real>, from: nat, e: nat)
    requires |types| == |speeds| == |dists| && from < e < |types|
    requires forall j :: from <= j < e ==> types[j] == types[from]
    requires types[e] != types[from]
    ensures SectorsFrom(types, speeds, dists, from) == RunSector(types, speeds, dists, from, e) + SectorsFrom(types, speeds, dists, e)
  {
    RunEndIs(types, from, e);
    SectorsFromStep(types, speeds, dists, from, e);
  }

  /** A run end is characterised by its properties. */
  lemma RunEndIs(types: seq<SectorType>, from: nat, e: nat)
    requires from < e <= |types|
    requires forall j :: from <= j < e ==> types[j] == types[from]
    requires e < |types| ==> types[e] != types[from]
    ensures RunEnd(types, from) == e
  {
  }

  lemma SectorsFromStep(types: seq<SectorType>, speeds: seq<real>, dists: seq<real>, from: nat, e: nat)
    requires |types| == |speeds| == |dists| && from < e < |types|
    requires RunEnd(types, from) == e
    ensures SectorsFrom(types, speeds, dists, from) == RunSector(types, speeds, dists, from, e) + SectorsFrom(types, speeds, dists, e)
  {
  }

  /** A maximal run of equal types over [a, b) with a successor at b. */
  predicate ClosedRun(types: seq<SectorType>, a: nat, b: nat)
  {
    && a < b < |types|
    && (forall j :: a <= j < b ==> types[j] == types[a])
    && types[b] != types[a]
    && (a == 0 || types[a - 1] != types[a])
  }

  /** Every sector is a closed maximal run longer than ten points that starts
      at or after `from`, with the run's type, its mean speed and the
      distance from its first point to the next run's first point. Sectors
      come in track order without overlapping. */
  lemma {:induction false} SectorsFromSound(types: seq<SectorType>, speeds: seq<real>, dists: seq<real>, from: nat)
    requires |types| == |speeds| == |dists| && from <= |types|
    requires from == 0 || (from < |types| && types[from - 1] != types[from])
    ensures forall s :: s in SectorsFrom(types, speeds, dists, from) ==>
      && from <= s.startIdx
      && ClosedRun(types, s.startIdx, s.endIdx)
      && s.endIdx - s.startIdx > 10
      && s.kind == types[s.startIdx]
      && s.avgSpeed == Stats.Mean(speeds[s.startIdx..s.endIdx])
      && s.length == dists[s.endIdx] - dists[s.startIdx]
    ensures forall j, k :: 0 <= j < k < |SectorsFrom(types, speeds, dists, from)| ==>
      SectorsFrom(types, speeds, dists, from)[j].endIdx <= SectorsFrom(types, speeds, dists, from)[k].startIdx
    decreases |types| - from
  {
    if from < |types| {
      var e := RunEnd(types, from);
      if e < |types| {
        SectorsFromSound(types, speeds, dists, e);
        var rest := SectorsFrom(types, speeds, dists, e);
        var head := RunSector(types, speeds, dists, from, e);
        assert SectorsFrom(types, speeds, dists, from) == head + rest;
        assert forall s :: s in rest ==> e <= s.startIdx;
      }
    }
  }

  /** The properties of the sectors of a whole track, including that every
      sector's average speed agrees with its type. */
  lemma TrackSectorsSound(points: seq<TrackPoint>)
    requires AllHaveSpeed(points) && |points| > 0
    ensures var speeds := Speeds(points);
      var avg := Stats.Mean(speeds);
      forall s :: s in TrackSectorsOf(points) ==>
        && s.startIdx < s.endIdx < |points|
        && s.endIdx - s.startIdx > 10
        && s.kind == Classify(speeds[s.startIdx], avg)
        && (forall j :: s.startIdx <= j < s.endIdx ==> Classify(speeds[j], avg) == s.kind)
        && Classify(speeds[s.endIdx], avg) != s.kind
        && s.avgSpeed == Stats.Mean(speeds[s.startIdx..s.endIdx])
        && s.length == points[s.endIdx].distance - points[s.startIdx].distance
        && (s.kind == Straight ==> s.avgSpeed > avg * 1.2)
        && (s.kind == Corner ==> s.avgSpeed < avg * 0.7)
        && (s.kind == Medium ==> avg * 0.7 <= s.avgSpeed <= avg * 1.2)
    ensures forall j, k :: 0 <= j < k < |TrackSectorsOf(points)| ==>
      TrackSectorsOf(points)[j].endIdx <= TrackSectorsOf(points)[k].startIdx
  {
    var speeds := Speeds(points);
    var avg := Stats.Mean(speeds);
    var types := Types(speeds, avg);
    var dists := Distances(points);
    SectorsFromSound(types, speeds, dists, 0);
    forall s | s in TrackSectorsOf(points)
      ensures (s.kind == Straight ==> s.avgSpeed > avg * 1.2)
      ensures (s.kind == Corner ==> s.avgSpeed < avg * 0.7)
      ensures (s.kind == Medium ==> avg * 0.7 <= s.avgSpeed <= avg * 1.2)
    {
      RunAverage(speeds[s.startIdx..s.endIdx], avg, s.kind);
    }
  }

  /** The mean of a run of equally classified speeds has the same class. */
  lemma RunAverage(run: seq<real>, avg: real, kind: SectorType)
    requires |run| > 0
    requires forall j :: 0 <= j < |run| ==> Classify(run[j], avg) == kind
    ensures kind == Straight ==> Stats.Mean(run) > avg * 1.2
    ensures kind == Corner ==> Stats.Mean(run) < avg * 0.7
    ensures kind == Medium ==> avg * 0.7 <= Stats.Mean(run) <= avg * 1.2
  {
    Stats.MeanBetweenMinAndMax(run);
    var lo, hi := Stats.Min(run), Stats.Max(run);
    assert Classify(lo, avg) == kind;
    assert Classify(hi, avg) == kind;
  }
}
