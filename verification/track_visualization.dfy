/** The geometry of the live track view: the bounding box of the loaded
    track, the uniform-scale centred map from track coordinates to the SVG
    viewport, the nearest-point lookup that places a vehicle from its track
    position, and the SVG path string drawn for the track. */
module TrackVisualization {
  import opened Wrappers
  import opened Track
  import opened RealArith
  import Stats

  datatype Bounds = Bounds(minX: real, maxX: real, minY: real, maxY: real)

  datatype ScreenPoint = ScreenPoint(x: real, y: real)

  /** Margin kept free on every side of the viewport. */
  const Padding: real := 60.0

  /** The fixed SVG viewBox the view draws into. */
  const ViewWidth: real := 1200.0
  const ViewHeight: real := 900.0

  /** Bounds the view can scale to a finite projection. A flat axis (zero
      extent) has the scale `+Infinity` in JavaScript when there is room to
      pad along it, and `Math.min` then keeps the other axis's scale; a box
      flat on both axes, or flat where there is no room, gives `NaN`. */
  predicate Scalable(b: Bounds, width: real, height: real)
  {
    && b.minX <= b.maxX && b.minY <= b.maxY
    && (b.minX < b.maxX || b.minY < b.maxY)
    && (b.minX == b.maxX ==> width > 2.0 * Padding)
    && (b.minY == b.maxY ==> height > 2.0 * Padding)
  }

  predicate InBox(b: Bounds, x: real, y: real)
  {
    b.minX <= x <= b.maxX && b.minY <= y <= b.maxY
  }

  /** The bounding box of the track, or the unit box while no track is loaded. */
  function NormalizeCoordinates(track: Option<TrackData>): (b: Bounds)
    requires track.Some? ==> |track.value.points| > 0
    ensures track.None? ==> b == Bounds(0.0, 1.0, 0.0, 1.0)
    ensures track.Some? ==>
      var pts := track.value.points;
      && b.minX in Xs(pts) && b.maxX in Xs(pts)
      && b.minY in Ys(pts) && b.maxY in Ys(pts)
      && forall i :: 0 <= i < |pts| ==> InBox(b, pts[i].x, pts[i].y)
  {
    match track
    case None => Bounds(0.0, 1.0, 0.0, 1.0)
    case Some(t) =>
      var xs, ys := Xs(t.points), Ys(t.points);
      Bounds(Stats.Min(xs), Stats.Max(xs), Stats.Min(ys), Stats.Max(ys))
  }

  /** `Math.min(scaleX, scaleY)`: one factor for both axes. The scale of a
      flat axis is `+Infinity`, so the other axis's scale is taken. */
  function Scale(b: Bounds, width: real, height: real): real
    requires Scalable(b, width, height)
  {
    var dx, dy := b.maxX - b.minX, b.maxY - b.minY;
    if dx == 0.0 then (height - Padding * 2.0) / dy
    else if dy == 0.0 then (width - Padding * 2.0) / dx
    else
      var scaleX := (width - Padding * 2.0) / dx;
      var scaleY := (height - Padding * 2.0) / dy;
      if scaleX <= scaleY then scaleX else scaleY
  }

  /** One axis of the projection: a box of `extent` starting at `lo`, scaled
      by `scale`, is centred in `size` (the offset is half the room left). */
  function Axis(v: real, lo: real, extent: real, scale: real, size: real): real
  {
    var offset := (size - extent * scale) / 2.0;
    (v - lo) * scale + offset
  }

  /** Projection for given bounds: scale uniformly, then centre the scaled
      bounding box in the viewport. */
  function Project(b: Bounds, x: real, y: real, width: real, height: real): ScreenPoint
    requires Scalable(b, width, height)
  {
    var scale := Scale(b, width, height);
    ScreenPoint(Axis(x, b.minX, b.maxX - b.minX, scale, width), Axis(y, b.minY, b.maxY - b.minY, scale, height))
  }

  /** `toScreenCoords`: track coordinates to viewport coordinates, using the
      bounds of the loaded track. */
  function ToScreenCoords(track: Option<TrackData>, x: real, y: real, width: real, height: real): ScreenPoint
    requires track.Some? ==> |track.value.points| > 0
    requires Scalable(NormalizeCoordinates(track), width, height)
  {
    Project(NormalizeCoordinates(track), x, y, width, height)
  }

  /** Preconditions under which the view can project a loaded track. */
  predicate Projectable(track: Option<TrackData>)
  {
    (track.Some? ==> |track.value.points| > 0) && Scalable(NormalizeCoordinates(track), ViewWidth, ViewHeight)
  }

  lemma MulMonotone(a: real, b: real, s: real)
    requires a <= b && s >= 0.0
    ensures a * s <= b * s
  {
  }

  /** The scale is positive and the scaled box fits inside the padded viewport
      on both axes. */
  lemma ScaleFits(b: Bounds, width: real, height: real)
    requires Scalable(b, width, height) && width > 2.0 * Padding && height > 2.0 * Padding
    ensures Scale(b, width, height) > 0.0
    ensures (b.maxX - b.minX) * Scale(b, width, height) <= width - 2.0 * Padding
    ensures (b.maxY - b.minY) * Scale(b, width, height) <= height - 2.0 * Padding
  {
    var dx, dy := b.maxX - b.minX, b.maxY - b.minY;
    var s := Scale(b, width, height);
    if dx != 0.0 {
      var sx := (width - Padding * 2.0) / dx;
      assert sx * dx == width - 2.0 * Padding;
      assert s <= sx;
      MulMonotone(s, sx, dx);
    }
    if dy != 0.0 {
      var sy := (height - Padding * 2.0) / dy;
      assert sy * dy == height - 2.0 * Padding;
      assert s <= sy;
      MulMonotone(s, sy, dy);
    }
  }

  lemma AxisMonotone(v1: real, v2: real, lo: real, extent: real, scale: real, size: real)
    requires v1 <= v2 && scale >= 0.0
    ensures Axis(v1, lo, extent, scale, size) <= Axis(v2, lo, extent, scale, size)
  {
    MulMonotone(v1 - lo, v2 - lo, scale);
  }

  lemma AxisWithin(v: real, lo: real, extent: real, scale: real, size: real)
    requires lo <= v <= lo + extent && scale >= 0.0 && extent * scale <= size - 2.0 * Padding
    ensures Padding <= Axis(v, lo, extent, scale, size) <= size - Padding
  {
    MulMonotone(0.0, v - lo, scale);
    MulMonotone(v - lo, extent, scale);
  }

  lemma AxisLinear(v1: real, v2: real, lo: real, extent: real, scale: real, size: real)
    ensures Axis(v2, lo, extent, scale, size) - Axis(v1, lo, extent, scale, size) == scale * (v2 - v1)
  {
    assert (v2 - lo) * scale - (v1 - lo) * scale == scale * (v2 - v1);
  }

  lemma AxisCentred(lo: real, extent: real, scale: real, size: real)
    ensures Axis(lo, lo, extent, scale, size) == size - Axis(lo + extent, lo, extent, scale, size)
    ensures extent * scale == size - 2.0 * Padding ==> Axis(lo, lo, extent, scale, size) == Padding
  {
  }

  /** Every point of the bounding box lands inside the viewport, at least
      `Padding` away from each edge. */
  lemma ProjectionWithinViewport(b: Bounds, x: real, y: real, width: real, height: real)
    requires Scalable(b, width, height) && InBox(b, x, y)
    requires width > 2.0 * Padding && height > 2.0 * Padding
    ensures var p := Project(b, x, y, width, height);
      Padding <= p.x <= width - Padding && Padding <= p.y <= height - Padding
  {
    var s := Scale(b, width, height);
    ScaleFits(b, width, height);
    AxisWithin(x, b.minX, b.maxX - b.minX, s, width);
    AxisWithin(y, b.minY, b.maxY - b.minY, s, height);
  }

  /** Projection preserves order on each axis. */
  lemma ProjectionMonotone(b: Bounds, x1: real, y1: real, x2: real, y2: real, width: real, height: real)
    requires Scalable(b, width, height)
    requires width > 2.0 * Padding && height > 2.0 * Padding
    requires x1 <= x2 && y1 <= y2
    ensures Project(b, x1, y1, width, height).x <= Project(b, x2, y2, width, height).x
    ensures Project(b, x1, y1, width, height).y <= Project(b, x2, y2, width, height).y
  {
    var s := Scale(b, width, height);
    ScaleFits(b, width, height);
    AxisMonotone(x1, x2, b.minX, b.maxX - b.minX, s, width);
    AxisMonotone(y1, y2, b.minY, b.maxY - b.minY, s, height);
  }

  /** One factor for both axes: the displacement between two projected
      points is the track displacement times the same positive number, so
      shapes keep their aspect ratio. */
  lemma ProjectionUniformScale(b: Bounds, x1: real, y1: real, x2: real, y2: real, width: real, height: real)
    requires Scalable(b, width, height)
    requires width > 2.0 * Padding && height > 2.0 * Padding
    ensures var p1, p2 := Project(b, x1, y1, width, height), Project(b, x2, y2, width, height);
      var s := Scale(b, width, height);
      s > 0.0 && p2.x - p1.x == s * (x2 - x1) && p2.y - p1.y == s * (y2 - y1)
  {
    var s := Scale(b, width, height);
    ScaleFits(b, width, height);
    AxisLinear(x1, x2, b.minX, b.maxX - b.minX, s, width);
    AxisLinear(y1, y2, b.minY, b.maxY - b.minY, s, height);
  }

  /** The projected bounding box is centred (equal margins on opposite sides)
      and fills the padded viewport along at least one axis. */
  lemma ProjectionCentred(b: Bounds, width: real, height: real)
    requires Scalable(b, width, height)
    requires width > 2.0 * Padding && height > 2.0 * Padding
    ensures var lo, hi := Project(b, b.minX, b.minY, width, height), Project(b, b.maxX, b.maxY, width, height);
      && lo.x == width - hi.x && lo.y == height - hi.y
      && (lo.x == Padding || lo.y == Padding)
  {
    var dx, dy := b.maxX - b.minX, b.maxY - b.minY;
    var s := Scale(b, width, height);
    assert dx * s == width - 2.0 * Padding || dy * s == height - 2.0 * Padding by {
      if dx == 0.0 {
        assert s * dy == height - 2.0 * Padding;
      } else if dy == 0.0 {
        assert s * dx == width - 2.0 * Padding;
      } else {
        var sx, sy := (width - Padding * 2.0) / dx, (height - Padding * 2.0) / dy;
        assert sx * dx == width - 2.0 * Padding;
        assert sy * dy == height - 2.0 * Padding;
        assert s == sx || s == sy;
      }
    }
    AxisCentred(b.minX, dx, s, width);
    AxisCentred(b.minY, dy, s, height);
    assert b.minX + dx == b.maxX && b.minY + dy == b.maxY;
  }

  /** A flat axis puts every coordinate on it at half the viewport. */
  lemma AxisFlat(v: real, lo: real, scale: real, size: real)
    requires v == lo
    ensures Axis(v, lo, 0.0, scale, size) == size / 2.0
  {
    assert v - lo == 0.0;
    assert 0.0 * scale == 0.0;
  }

  /** A track along one axis is drawn as a line through the middle of the
      viewport: the flat axis's coordinate lands at half the viewport. */
  lemma FlatAxisCentred(b: Bounds, x: real, y: real, width: real, height: real)
    requires Scalable(b, width, height) && InBox(b, x, y)
    ensures b.minX == b.maxX ==> Project(b, x, y, width, height).x == width / 2.0
    ensures b.minY == b.maxY ==> Project(b, x, y, width, height).y == height / 2.0
  {
    var s := Scale(b, width, height);
    if b.minX == b.maxX {
      assert b.maxX - b.minX == 0.0;
      AxisFlat(x, b.minX, s, width);
    }
    if b.minY == b.maxY {
      assert b.maxY - b.minY == 0.0;
      AxisFlat(y, b.minY, s, height);
    }
  }

  /** How far point `i` lies from a track position. */
  function Gap(points: seq<TrackPoint>, i: nat, trackPosition: real): real
    requires i < |points|
  {
    Abs(points[i].distance - trackPosition)
  }

  /** `k` is the first point whose distance is nearest the track position. */
  predicate IsClosest(points: seq<TrackPoint>, trackPosition: real, k: nat)
  {
    && k < |points|
    && (forall j :: 0 <= j < |points| ==> Gap(points, k, trackPosition) <= Gap(points, j, trackPosition))
    && (forall j :: 0 <= j < k ==> Gap(points, k, trackPosition) < Gap(points, j, trackPosition))
  }

  /** At most one point is the first nearest one. */
  lemma ClosestIsUnique(points: seq<TrackPoint>, trackPosition: real, k1: nat, k2: nat)
    requires IsClosest(points, trackPosition, k1) && IsClosest(points, trackPosition, k2)
    ensures k1 == k2
  {
    assert Gap(points, k1, trackPosition) <= Gap(points, k2, trackPosition);
    assert Gap(points, k2, trackPosition) <= Gap(points, k1, trackPosition);
  }

  /** Linear scan for the point nearest a track position; a later point
      replaces the current one only when strictly nearer. */
  method ClosestPoint(points: seq<TrackPoint>, trackPosition: real) returns (k: nat)
    requires |points| > 0
    ensures IsClosest(points, trackPosition, k)
  {
    k := 0;
    var minDiff := Gap(points, 0, trackPosition);
    for i := 0 to |points|
      invariant k < |points| && (k == 0 || k < i)
      invariant minDiff == Gap(points, k, trackPosition)
      invariant forall j :: 0 <= j < i ==> minDiff <= Gap(points, j, trackPosition)
      invariant forall j :: 0 <= j < k ==> minDiff < Gap(points, j, trackPosition)
    {
      var diff := Gap(points, i, trackPosition);
      if diff < minDiff {
        minDiff := diff;
        k := i;
      }
    }
  }

  /** Screen position of a vehicle: the projection of the track point nearest
      its track position, or the origin while no track (or an empty one) is
      loaded. */
  method GetVehicleScreenPosition(track: Option<TrackData>, trackPosition: real) returns (p: ScreenPoint)
    requires track.Some? && |track.value.points| > 0 ==> Scalable(NormalizeCoordinates(track), ViewWidth, ViewHeight)
    ensures track.None? || |track.value.points| == 0 ==> p == ScreenPoint(0.0, 0.0)
    ensures track.Some? && |track.value.points| > 0 ==>
      exists k: nat :: IsClosest(track.value.points, trackPosition, k) &&
        p == ToScreenCoords(track, track.value.points[k].x, track.value.points[k].y, ViewWidth, ViewHeight)
  {
    if track.None? || |track.value.points| == 0 {
      return ScreenPoint(0.0, 0.0);
    }
    var pts := track.value.points;
    var k := ClosestPoint(pts, trackPosition);
    p := ToScreenCoords(track, pts[k].x, pts[k].y, ViewWidth, ViewHeight);
  }

  /** A vehicle drawn from a loaded track always lies inside the viewBox
      padding. */
  lemma VehicleMarkerInsideViewport(track: Option<TrackData>, trackPosition: real, k: nat)
    requires track.Some? && Projectable(track)
    requires IsClosest(track.value.points, trackPosition, k)
    ensures var p := ToScreenCoords(track, track.value.points[k].x, track.value.points[k].y, ViewWidth, ViewHeight);
      Padding <= p.x <= ViewWidth - Padding && Padding <= p.y <= ViewHeight - Padding
  {
    var pts := track.value.points;
    var b := NormalizeCoordinates(track);
    assert InBox(b, pts[k].x, pts[k].y);
    ProjectionWithinViewport(b, pts[k].x, pts[k].y, ViewWidth, ViewHeight);
  }

  // ---------------------------------------------------------------------
  // The SVG path of the track outline

  datatype PathCommand = MoveTo(p: ScreenPoint) | LineTo(p: ScreenPoint)

  /** One command per track point, at the projected point: `M` for the first
      and `L` for every other. */
  function PathCommands(track: TrackData): (cmds: seq<PathCommand>)
    requires |track.points| > 0 ==> Scalable(NormalizeCoordinates(Some(track)), ViewWidth, ViewHeight)
  {
    seq(|track.points|, i requires 0 <= i < |track.points| =>
      var q := ToScreenCoords(Some(track), track.points[i].x, track.points[i].y, ViewWidth, ViewHeight);
      if i == 0 then MoveTo(q) else LineTo(q))
  }

  /** Template-literal rendering of one command; `fmt` is JavaScript's
      number-to-string conversion. */
  function RenderCommand(c: PathCommand, fmt: real -> string): string
  {
    match c
    case MoveTo(q) => "M " + fmt(q.x) + " " + fmt(q.y)
    case LineTo(q) => "L " + fmt(q.x) + " " + fmt(q.y)
  }

  /** `Array.prototype.join`. */
  function Join(parts: seq<string>, sep: string): string
  {
    if |parts| == 0 then ""
    else if |parts| == 1 then parts[0]
    else Join(parts[..|parts| - 1], sep) + sep + parts[|parts| - 1]
  }

  /** The `d` attribute of the track outline: the rendered commands joined
      by spaces, closed with ` Z`. */
  function TrackPath(track: TrackData, fmt: real -> string): string
    requires |track.points| > 0 ==> Scalable(NormalizeCoordinates(Some(track)), ViewWidth, ViewHeight)
  {
    var cmds := PathCommands(track);
    Join(seq(|cmds|, i requires 0 <= i < |cmds| => RenderCommand(cmds[i], fmt)), " ") + " Z"
  }

  /** Number rendering never produces the path command letters. */
  ghost predicate PlainNumbers(fmt: real -> string)
  {
    forall r :: 'M' !in fmt(r) && 'L' !in fmt(r) && 'Z' !in fmt(r)
  }

  /** Occurrences of `c` in `s`. */
  function Count(s: string, c: char): nat
  {
    if |s| == 0 then 0 else Count(s[..|s| - 1], c) + (if s[|s| - 1] == c then 1 else 0)
  }

  lemma {:induction false} CountConcat(a: string, b: string, c: char)
    ensures Count(a + b, c) == Count(a, c) + Count(b, c)
  {
    if |b| > 0 {
      assert (a + b)[..|a + b| - 1] == a + b[..|b| - 1];
      CountConcat(a, b[..|b| - 1], c);
    } else {
      assert a + b == a;
    }
  }

  lemma {:induction false} CountAbsent(s: string, c: char)
    requires c !in s
    ensures Count(s, c) == 0
  {
    if |s| > 0 {
      CountAbsent(s[..|s| - 1], c);
    }
  }

  function CommandLetterCount(cmds: seq<PathCommand>, c: char): nat
  {
    if |cmds| == 0 then 0
    else
      var last := cmds[|cmds| - 1];
      CommandLetterCount(cmds[..|cmds| - 1], c) + (if (c == 'M' && last.MoveTo?) || (c == 'L' && last.LineTo?) then 1 else 0)
  }

  lemma RenderCount(c: PathCommand, fmt: real -> string, ch: char)
    requires PlainNumbers(fmt) && (ch == 'M' || ch == 'L' || ch == 'Z')
    ensures Count(RenderCommand(c, fmt), ch) ==
      (if (ch == 'M' && c.MoveTo?) || (ch == 'L' && c.LineTo?) then 1 else 0)
  {
    var x, y := fmt(c.p.x), fmt(c.p.y);
    CountAbsent(x, ch);
    CountAbsent(y, ch);
    var lead := if c.MoveTo? then "M " else "L ";
    assert RenderCommand(c, fmt) == lead + x + " " + y;
    CountConcat(lead + x + " ", y, ch);
    CountConcat(lead + x, " ", ch);
    CountConcat(lead, x, ch);
    assert Count(lead, ch) == (if (ch == 'M' && c.MoveTo?) || (ch == 'L' && c.LineTo?) then 1 else 0) by {
      assert lead[..1] == [lead[0]];
      assert lead[..1][..0] == [];
    }
    assert Count(" ", ch) == 0 by {
      assert " "[..0] == [];
    }
  }

  lemma {:induction false} JoinCount(cmds: seq<PathCommand>, fmt: real -> string, ch: char)
    requires PlainNumbers(fmt) && (ch == 'M' || ch == 'L' || ch == 'Z')
    ensures Count(Join(seq(|cmds|, i requires 0 <= i < |cmds| => RenderCommand(cmds[i], fmt)), " "), ch)
      == CommandLetterCount(cmds, ch)
  {
    var parts := seq(|cmds|, i requires 0 <= i < |cmds| => RenderCommand(cmds[i], fmt));
    if |cmds| == 0 {
    } else if |cmds| == 1 {
      RenderCount(cmds[0], fmt, ch);
      assert cmds[..0] == [];
    } else {
      var init := cmds[..|cmds| - 1];
      var initParts := seq(|init|, i requires 0 <= i < |init| => RenderCommand(init[i], fmt));
      assert parts[..|parts| - 1] == initParts;
      JoinCount(init, fmt, ch);
      RenderCount(cmds[|cmds| - 1], fmt, ch);
      JoinStep(parts, ch);
    }
  }

  /** Joining one more part with a space adds that part's occurrences of a
      letter other than the space. */
  lemma JoinStep(parts: seq<string>, ch: char)
    requires |parts| >= 2 && ch != ' '
    ensures Count(Join(parts, " "), ch) == Count(Join(parts[..|parts| - 1], " "), ch) + Count(parts[|parts| - 1], ch)
  {
    var j := Join(parts[..|parts| - 1], " ");
    assert Join(parts, " ") == j + " " + parts[|parts| - 1];
    CountConcat(j + " ", parts[|parts| - 1], ch);
    CountConcat(j, " ", ch);
    assert Count(" ", ch) == 0 by {
      assert " "[..0] == [];
    }
  }

  lemma {:induction false} LetterCountOfPath(cmds: seq<PathCommand>, n: nat)
    requires |cmds| == n
    requires forall i :: 0 <= i < n ==> (cmds[i].MoveTo? <==> i == 0)
    ensures CommandLetterCount(cmds, 'M') == (if n > 0 then 1 else 0)
    ensures CommandLetterCount(cmds, 'L') == (if n > 0 then n - 1 else 0)
    ensures CommandLetterCount(cmds, 'Z') == 0
  {
    if n > 0 {
      LetterCountOfPath(cmds[..n - 1], n - 1);
    }
  }

  /** The path holds one command per track point, `M` for the first and `L`
      for every other, each at the projected point. */
  lemma PathCommandsShape(track: TrackData, i: nat)
    requires |track.points| > 0 ==> Scalable(NormalizeCoordinates(Some(track)), ViewWidth, ViewHeight)
    requires i < |track.points|
    ensures |PathCommands(track)| == |track.points|
    ensures PathCommands(track)[i].MoveTo? <==> i == 0
    ensures PathCommands(track)[i].p == ToScreenCoords(Some(track), track.points[i].x, track.points[i].y, ViewWidth, ViewHeight)
  {
  }

  /** The path string carries exactly one `M`, one `L` per point after the
      first, and a single closing `Z` at its end. */
  lemma TrackPathLetters(track: TrackData, fmt: real -> string)
    requires |track.points| > 0 ==> Scalable(NormalizeCoordinates(Some(track)), ViewWidth, ViewHeight)
    requires PlainNumbers(fmt)
    ensures var d, n := TrackPath(track, fmt), |track.points|;
      && Count(d, 'M') == (if n > 0 then 1 else 0)
      && Count(d, 'L') == (if n > 0 then n - 1 else 0)
      && Count(d, 'Z') == 1
      && d[|d| - 2..] == " Z"
  {
    var cmds := PathCommands(track);
    var n := |track.points|;
    var body := Join(seq(|cmds|, i requires 0 <= i < |cmds| => RenderCommand(cmds[i], fmt)), " ");
    assert TrackPath(track, fmt) == body + " Z";
    CountConcat(body, " Z", 'M');
    CountConcat(body, " Z", 'L');
    CountConcat(body, " Z", 'Z');
    assert Count(" Z", 'Z') == 1 && Count(" Z", 'M') == 0 && Count(" Z", 'L') == 0 by {
      assert " Z"[..1] == " " && " "[..0] == [];
    }
    JoinCount(cmds, fmt, 'M');
    JoinCount(cmds, fmt, 'L');
    JoinCount(cmds, fmt, 'Z');
    LetterCountOfPath(cmds, n);
  }
}
