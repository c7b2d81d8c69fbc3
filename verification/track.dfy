/** Track geometry as loaded from a track JSON file: a centre-line polyline
    whose points carry the cumulative distance from the start/finish line.
    The frontend reads `x`, `y`, `z` and `distance`; the backend also reads
    the optional `speed` written by the track fetcher. */
module Track {
  import opened Wrappers

  datatype TrackPoint = TrackPoint(x: real, y: real, z: real, distance: real, speed: Option<real>)

  datatype TrackData = TrackData(trackName: string, totalLength: real, points: seq<TrackPoint>)

  /** The x coordinates of the points, in order (`points.map(p => p.x)`). */
  function Xs(points: seq<TrackPoint>): (xs: seq<real>)
    ensures |xs| == |points|
    ensures forall i :: 0 <= i < |points| ==> xs[i] == points[i].x
  {
    seq(|points|, i requires 0 <= i < |points| => points[i].x)
  }

  /** The y coordinates of the points, in order (`points.map(p => p.y)`). */
  function Ys(points: seq<TrackPoint>): (ys: seq<real>)
    ensures |ys| == |points|
    ensures forall i :: 0 <= i < |points| ==> ys[i] == points[i].y
  {
    seq(|points|, i requires 0 <= i < |points| => points[i].y)
  }
}
