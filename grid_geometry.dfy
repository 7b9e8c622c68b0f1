/** Geometry of the coordinate grid drawn by a CoordinateSkin: the main X/Y axes,
    the gridline tiers every `interval` units and the numeric labels on the axes.
    All coordinates are offsets from the skin's rotation centre. */
module GridGeometry {

  /** A line from (x0, y0) to (x1, y1). */
  datatype Segment = Segment(x0: int, y0: int, x1: int, y1: int)

  /** A label whose text is the number `text`, drawn at (x, y). */
  datatype Label = Label(text: int, x: int, y: int)

  /** Stroke attributes of one tier; the line width is an exact rational. */
  datatype AxisStyle = AxisStyle(strokeStyle: string, lineWidth: real)

  /** Fill attributes of the labels. */
  datatype PointStyle = PointStyle(fillStyle: string)

  /** The skin's `checkerStyle`: the base style every tier is derived from. It has
      the same shape as `Attributes`, but it is the input of the tier builders. */
  datatype CheckerStyle = CheckerStyle(axis: AxisStyle, point: PointStyle)

  /** A tier's `attributes`, the style actually applied while drawing that tier (the
      base style with the tier's own line width). */
  datatype Attributes = Attributes(axis: AxisStyle, point: PointStyle)

  /** One unit of drawing work: segments, labels and the attributes to draw them with. */
  datatype AxisData = AxisData(coordinates: seq<Segment>, coordPoints: seq<Label>, attributes: Attributes)

  const DefaultCheckerStyle := CheckerStyle(AxisStyle("#d8d8d9", 1.0), PointStyle("#d8d8d9"))

  /** Interval of the labelled tier (the default argument of the grid builder). */
  const MajorInterval: nat := 100

  /** Interval of the unlabelled tier. */
  const MinorInterval: nat := 20

  /** `s` is the horizontal line at height `y` running from x = reach to x = -reach. */
  predicate HorizontalAt(s: Segment, y: int, reach: int)
  {
    s == Segment(reach, y, -reach, y)
  }

  /** `s` is the vertical line at `x` running from y = reach to y = -reach. */
  predicate VerticalAt(s: Segment, x: int, reach: int)
  {
    s == Segment(x, reach, x, -reach)
  }

  /** `s` lies on the X axis: both of its ends have y = 0. */
  predicate OnXAxis(s: Segment)
  {
    s.y0 == 0 && s.y1 == 0
  }

  /** `s` lies on the Y axis: both of its ends have x = 0. */
  predicate OnYAxis(s: Segment)
  {
    s.x0 == 0 && s.x1 == 0
  }

  // ---------------------------------------------------------------------------
  // Main axis
  // ---------------------------------------------------------------------------

  /** The X and Y axes through the origin for a logical size maxX by maxY. */
  function MainAxis(style: CheckerStyle, maxX: int, maxY: int): AxisData
  {
    AxisData(
      [Segment(maxX, 0, -maxX, 0), Segment(0, maxY, 0, -maxY)],
      [Label(0, 0, 0)],
      Attributes(AxisStyle(style.axis.strokeStyle, style.axis.lineWidth * 2.0), style.point))
  }

  // ---------------------------------------------------------------------------
  // Grid tiers: the reference definition
  // ---------------------------------------------------------------------------

  /** How many positive multiples of `interval` lie strictly below `max`: none when
      the interval itself reaches `max`, otherwise the first one plus those of the
      remaining distance. */
  function StepCount(interval: nat, max: int): nat
    requires interval > 0
    decreases max
  {
    if max <= interval then 0 else 1 + StepCount(interval, max - interval)
  }

  /** The offset of the j-th line of a tier's pair sequence +i, -i, +2i, -2i, ... */
  function SignedStep(j: nat, interval: nat): int
  {
    if j % 2 == 0 then (j / 2 + 1) * interval else -((j / 2 + 1) * interval)
  }

  /** Full-height vertical lines at every signed step below maxX. */
  function VerticalLines(interval: nat, maxX: int, maxY: int): seq<Segment>
    requires interval > 0
  {
    seq(2 * StepCount(interval, maxX), j requires 0 <= j =>
      Segment(SignedStep(j, interval), maxY, SignedStep(j, interval), -maxY))
  }

  /** Full-width horizontal lines at every signed step below maxY. */
  function HorizontalLines(interval: nat, maxX: int, maxY: int): seq<Segment>
    requires interval > 0
  {
    seq(2 * StepCount(interval, maxY), j requires 0 <= j =>
      Segment(maxX, SignedStep(j, interval), -maxX, SignedStep(j, interval)))
  }

  /** Labels on the X axis: the text is the line's own offset. */
  function XLabels(interval: nat, maxX: int): seq<Label>
    requires interval > 0
  {
    seq(2 * StepCount(interval, maxX), j requires 0 <= j =>
      Label(SignedStep(j, interval), SignedStep(j, interval), 0))
  }

  /** Labels on the Y axis: the text is the line's offset with its sign flipped. */
  function YLabels(interval: nat, maxY: int): seq<Label>
    requires interval > 0
  {
    seq(2 * StepCount(interval, maxY), j requires 0 <= j =>
      Label(-SignedStep(j, interval), 0, SignedStep(j, interval)))
  }

  /** The tier the grid builder returns: all vertical lines, then all horizontal lines;
      labels only when asked for, and the line width reduced to 0.7 without them. */
  function GridAxis(style: CheckerStyle, maxX: int, maxY: int, interval: nat, isNeedCoordPoint: bool): AxisData
    requires interval > 0
  {
    AxisData(
      VerticalLines(interval, maxX, maxY) + HorizontalLines(interval, maxX, maxY),
      if isNeedCoordPoint then XLabels(interval, maxX) + YLabels(interval, maxY) else [],
      Attributes(
        AxisStyle(style.axis.strokeStyle,
                  if isNeedCoordPoint then style.axis.lineWidth else style.axis.lineWidth * 0.7),
        style.point))
  }

  // ---------------------------------------------------------------------------
  // Grid tiers: the builder, two loops that push onto growing lists
  // ---------------------------------------------------------------------------

  method BuildGridAxis(style: CheckerStyle, maxX: int, maxY: int, interval: nat, isNeedCoordPoint: bool)
    returns (r: AxisData)
    requires interval > 0
    ensures r == GridAxis(style, maxX, maxY, interval, isNeedCoordPoint)
  {
    var coordinates: seq<Segment> := [];
    var coordPoints: seq<Label> := [];
    var stepX: int := interval;
    var stepY: int := interval;

    ghost var vertical := VerticalLines(interval, maxX, maxY);
    ghost var xLabels := XLabels(interval, maxX);
    ghost var n: nat := 0;
    while stepX < maxX
      invariant stepX == (n + 1) * interval
      invariant n <= StepCount(interval, maxX)
      invariant coordinates == vertical[..2 * n]
      invariant coordPoints == xLabels[..2 * n]
      decreases maxX - stepX
    {
      VerticalStep(interval, maxX, maxY, n, stepX);
      coordinates := coordinates + [Segment(stepX, maxY, stepX, -maxY), Segment(-stepX, maxY, -stepX, -maxY)];
      coordPoints := coordPoints + [Label(stepX, stepX, 0), Label(-stepX, -stepX, 0)];
      stepX := stepX + interval;
      n := n + 1;
    }
    VerticalDone(interval, maxX, maxY, n, stepX);

    ghost var horizontal := HorizontalLines(interval, maxX, maxY);
    ghost var yLabels := YLabels(interval, maxY);
    ghost var m: nat := 0;
    while stepY < maxY
      invariant stepY == (m + 1) * interval
      invariant m <= StepCount(interval, maxY)
      invariant coordinates == vertical + horizontal[..2 * m]
      invariant coordPoints == xLabels + yLabels[..2 * m]
      decreases maxY - stepY
    {
      HorizontalStep(interval, maxX, maxY, m, stepY);
      coordinates := coordinates + [Segment(maxX, stepY, -maxX, stepY), Segment(maxX, -stepY, -maxX, -stepY)];
      coordPoints := coordPoints + [Label(-stepY, 0, stepY), Label(stepY, 0, -stepY)];
      stepY := stepY + interval;
      m := m + 1;
    }
    HorizontalDone(interval, maxX, maxY, m, stepY);

    r := AxisData(
      coordinates,
      if isNeedCoordPoint then coordPoints else [],
      Attributes(
        AxisStyle(style.axis.strokeStyle,
                  if isNeedCoordPoint then style.axis.lineWidth else style.axis.lineWidth * 0.7),
        style.point));
  }

  /** One pass of the first loop appends the next vertical pair and its labels. */
  lemma VerticalStep(interval: nat, maxX: int, maxY: int, n: nat, stepX: int)
    requires interval > 0 && stepX == (n + 1) * interval && stepX < maxX
    ensures n + 1 <= StepCount(interval, maxX)
    ensures VerticalLines(interval, maxX, maxY)[..2 * n + 2]
      == VerticalLines(interval, maxX, maxY)[..2 * n] + [Segment(stepX, maxY, stepX, -maxY), Segment(-stepX, maxY, -stepX, -maxY)]
    ensures XLabels(interval, maxX)[..2 * n + 2]
      == XLabels(interval, maxX)[..2 * n] + [Label(stepX, stepX, 0), Label(-stepX, -stepX, 0)]
    ensures stepX + interval == (n + 2) * interval
  {
    StepCountExact(interval, maxX, n + 1);
    SignedStepPairs(interval, n);
    PrefixGrows(VerticalLines(interval, maxX, maxY), n);
    PrefixGrows(XLabels(interval, maxX), n);
  }

  /** When the first loop stops, it has appended every vertical pair and label. */
  lemma VerticalDone(interval: nat, maxX: int, maxY: int, n: nat, stepX: int)
    requires interval > 0 && stepX == (n + 1) * interval && stepX >= maxX && n <= StepCount(interval, maxX)
    ensures VerticalLines(interval, maxX, maxY)[..2 * n] == VerticalLines(interval, maxX, maxY)
    ensures XLabels(interval, maxX)[..2 * n] == XLabels(interval, maxX)
  {
    StepCountExact(interval, maxX, n + 1);
  }

  /** One pass of the second loop appends the next horizontal pair and its labels. */
  lemma HorizontalStep(interval: nat, maxX: int, maxY: int, m: nat, stepY: int)
    requires interval > 0 && stepY == (m + 1) * interval && stepY < maxY
    ensures m + 1 <= StepCount(interval, maxY)
    ensures HorizontalLines(interval, maxX, maxY)[..2 * m + 2]
      == HorizontalLines(interval, maxX, maxY)[..2 * m] + [Segment(maxX, stepY, -maxX, stepY), Segment(maxX, -stepY, -maxX, -stepY)]
    ensures YLabels(interval, maxY)[..2 * m + 2]
      == YLabels(interval, maxY)[..2 * m] + [Label(-stepY, 0, stepY), Label(stepY, 0, -stepY)]
    ensures stepY + interval == (m + 2) * interval
  {
    StepCountExact(interval, maxY, m + 1);
    SignedStepPairs(interval, m);
    PrefixGrows(HorizontalLines(interval, maxX, maxY), m);
    PrefixGrows(YLabels(interval, maxY), m);
  }

  /** When the second loop stops, it has appended every horizontal pair and label. */
  lemma HorizontalDone(interval: nat, maxX: int, maxY: int, m: nat, stepY: int)
    requires interval > 0 && stepY == (m + 1) * interval && stepY >= maxY && m <= StepCount(interval, maxY)
    ensures HorizontalLines(interval, maxX, maxY)[..2 * m] == HorizontalLines(interval, maxX, maxY)
    ensures YLabels(interval, maxY)[..2 * m] == YLabels(interval, maxY)
  {
    StepCountExact(interval, maxY, m + 1);
  }

  // ---------------------------------------------------------------------------
  // Properties of the grid tiers
  // ---------------------------------------------------------------------------

  lemma MulMonotone(a: int, b: int, c: nat)
    requires a <= b
    ensures a * c <= b * c
  {
  }

  /** Extending a prefix of even length by the next pair. */
  lemma PrefixGrows<T>(s: seq<T>, p: nat)
    requires 2 * p + 2 <= |s|
    ensures s[..2 * p + 2] == s[..2 * p] + [s[2 * p], s[2 * p + 1]]
  {
  }

  /** The strict loop bound: multiple k of the interval is visited exactly when
      k·interval < max. */
  lemma {:induction false} StepCountExact(interval: nat, max: int, k: int)
    requires interval > 0 && k >= 1
    ensures k * interval < max <==> k <= StepCount(interval, max)
    decreases max
  {
    MulMonotone(1, k, interval);
    if max > interval && k > 1 {
      assert (k - 1) * interval == k * interval - interval;
      StepCountExact(interval, max - interval, k - 1);
    }
  }

  /** The number of visited multiples in closed form: floor((max - 1) / interval)
      for a positive max, and none otherwise. */
  lemma StepCountClosedForm(interval: nat, max: int)
    requires interval > 0
    ensures StepCount(interval, max) == if max <= 0 then 0 else (max - 1) / interval
  {
    if max <= 0 {
      StepCountExact(interval, max, 1);
    } else {
      var n := (max - 1) / interval;
      assert n * interval <= max - 1 < (n + 1) * interval;
      if n >= 1 {
        StepCountExact(interval, max, n);
      }
      StepCountExact(interval, max, n + 1);
    }
  }

  /** Segment count: two lines per visited multiple on each axis; none when the
      interval reaches both maxX and maxY. */
  lemma GridSegmentCount(style: CheckerStyle, maxX: int, maxY: int, interval: nat, isNeedCoordPoint: bool)
    requires interval > 0
    ensures var r := GridAxis(style, maxX, maxY, interval, isNeedCoordPoint);
      |r.coordinates| == 2 * StepCount(interval, maxX) + 2 * StepCount(interval, maxY)
      && (interval >= maxX && interval >= maxY ==> r.coordinates == [] && r.coordPoints == [])
  {
    if interval >= maxX {
      StepCountExact(interval, maxX, 1);
    }
    if interval >= maxY {
      StepCountExact(interval, maxY, 1);
    }
  }

  /** The vertical lines sit at ±k·interval for k = 1, 2, ..., in pairs, span the
      full height and lie strictly inside maxX. */
  lemma VerticalLinePositions(interval: nat, maxX: int, maxY: int)
    requires interval > 0
    ensures var v := VerticalLines(interval, maxX, maxY);
      forall j :: 0 <= j < |v| ==>
        VerticalAt(v[j], SignedStep(j, interval), maxY) && 0 < (j / 2 + 1) * interval < maxX
  {
    var v := VerticalLines(interval, maxX, maxY);
    forall j | 0 <= j < |v|
      ensures VerticalAt(v[j], SignedStep(j, interval), maxY) && 0 < (j / 2 + 1) * interval < maxX
    {
      StepCountExact(interval, maxX, j / 2 + 1);
    }
  }

  /** The horizontal lines sit at ±k·interval for k = 1, 2, ..., in pairs, span the
      full width and lie strictly inside maxY. */
  lemma HorizontalLinePositions(interval: nat, maxX: int, maxY: int)
    requires interval > 0
    ensures var h := HorizontalLines(interval, maxX, maxY);
      forall j :: 0 <= j < |h| ==>
        HorizontalAt(h[j], SignedStep(j, interval), maxX) && 0 < (j / 2 + 1) * interval < maxY
  {
    var h := HorizontalLines(interval, maxX, maxY);
    forall j | 0 <= j < |h|
      ensures HorizontalAt(h[j], SignedStep(j, interval), maxX) && 0 < (j / 2 + 1) * interval < maxY
    {
      StepCountExact(interval, maxY, j / 2 + 1);
    }
  }

  /** Every segment of a tier in order: first the vertical lines, then the
      horizontal ones, each at a signed multiple of the interval strictly inside
      the logical size. */
  lemma GridLinePositions(style: CheckerStyle, maxX: int, maxY: int, interval: nat, isNeedCoordPoint: bool)
    requires interval > 0
    ensures var c := GridAxis(style, maxX, maxY, interval, isNeedCoordPoint).coordinates;
      var nx := 2 * StepCount(interval, maxX);
      && (forall j :: 0 <= j < nx ==>
            VerticalAt(c[j], SignedStep(j, interval), maxY) && 0 < (j / 2 + 1) * interval < maxX)
      && (forall j :: nx <= j < |c| ==>
            HorizontalAt(c[j], SignedStep(j - nx, interval), maxX) && 0 < ((j - nx) / 2 + 1) * interval < maxY)
  {
    var v := VerticalLines(interval, maxX, maxY);
    var h := HorizontalLines(interval, maxX, maxY);
    var c := GridAxis(style, maxX, maxY, interval, isNeedCoordPoint).coordinates;
    VerticalLinePositions(interval, maxX, maxY);
    HorizontalLinePositions(interval, maxX, maxY);
    assert c == v + h;
    forall j | |v| <= j < |c|
      ensures c[j] == h[j - |v|]
    {
    }
  }

  /** On a stage with both dimensions positive, no line of a grid tier lies on
      either axis: vertical lines sit at nonzero x and span y = ±maxY, horizontal
      lines sit at nonzero y and span x = ±maxX. */
  lemma GridOffAxes(style: CheckerStyle, maxX: int, maxY: int, interval: nat, isNeedCoordPoint: bool)
    requires interval > 0 && maxX > 0 && maxY > 0
    ensures var c := GridAxis(style, maxX, maxY, interval, isNeedCoordPoint).coordinates;
      forall j :: 0 <= j < |c| ==> !OnXAxis(c[j]) && !OnYAxis(c[j])
  {
    var v := VerticalLines(interval, maxX, maxY);
    var h := HorizontalLines(interval, maxX, maxY);
    var c := GridAxis(style, maxX, maxY, interval, isNeedCoordPoint).coordinates;
    assert c == v + h;
    forall j | 0 <= j < |c|
      ensures !OnXAxis(c[j]) && !OnYAxis(c[j])
    {
      if j < |v| {
        SignedStepPairs(interval, j / 2);
        assert c[j] == v[j];
      } else {
        SignedStepPairs(interval, (j - |v|) / 2);
        assert c[j] == h[j - |v|];
      }
    }
  }

  /** Completeness: for every k >= 1 with k·interval below the bound, both lines
      at ±k·interval are present (and, by GridLinePositions, nothing at or beyond it). */
  lemma GridLinesComplete(style: CheckerStyle, maxX: int, maxY: int, interval: nat, isNeedCoordPoint: bool, k: int)
    requires interval > 0 && k >= 1
    ensures var c := GridAxis(style, maxX, maxY, interval, isNeedCoordPoint).coordinates;
      && (k * interval < maxX ==>
            Segment(k * interval, maxY, k * interval, -maxY) in c
            && Segment(-(k * interval), maxY, -(k * interval), -maxY) in c)
      && (k * interval < maxY ==>
            Segment(maxX, k * interval, -maxX, k * interval) in c
            && Segment(maxX, -(k * interval), -maxX, -(k * interval)) in c)
  {
    var c := GridAxis(style, maxX, maxY, interval, isNeedCoordPoint).coordinates;
    var nx := 2 * StepCount(interval, maxX);
    StepCountExact(interval, maxX, k);
    StepCountExact(interval, maxY, k);
    if k * interval < maxX {
      assert c[2 * (k - 1)] == Segment(k * interval, maxY, k * interval, -maxY);
      assert c[2 * (k - 1) + 1] == Segment(-(k * interval), maxY, -(k * interval), -maxY);
    }
    if k * interval < maxY {
      assert c[nx + 2 * (k - 1)] == Segment(maxX, k * interval, -maxX, k * interval);
      assert c[nx + 2 * (k - 1) + 1] == Segment(maxX, -(k * interval), -maxX, -(k * interval));
    }
  }

  /** In a sequence of pairs built from SignedStep, each pair is +step, -step with
      step > 0, and each pair's step exceeds the previous pair's by the interval. */
  lemma SignedStepPairs(interval: nat, p: nat)
    requires interval > 0
    ensures SignedStep(2 * p, interval) == (p + 1) * interval > 0
    ensures SignedStep(2 * p + 1, interval) == -SignedStep(2 * p, interval)
    ensures SignedStep(2 * p + 2, interval) == SignedStep(2 * p, interval) + interval
  {
  }

  /** Ordering: the tier lists every vertical line before every horizontal line;
      within each, lines come in pairs +step, -step with step > 0, and each pair's
      step exceeds the previous pair's by exactly the interval. */
  lemma GridPairOrdering(style: CheckerStyle, maxX: int, maxY: int, interval: nat, isNeedCoordPoint: bool)
    requires interval > 0
    ensures var v, h := VerticalLines(interval, maxX, maxY), HorizontalLines(interval, maxX, maxY);
      && GridAxis(style, maxX, maxY, interval, isNeedCoordPoint).coordinates == v + h
      && (forall p :: 0 <= p && 2 * p + 1 < |v| ==> v[2 * p].x0 > 0 && v[2 * p + 1].x0 == -v[2 * p].x0)
      && (forall p :: 0 <= p && 2 * p + 3 < |v| ==> v[2 * p + 2].x0 == v[2 * p].x0 + interval)
      && (forall p :: 0 <= p && 2 * p + 1 < |h| ==> h[2 * p].y0 > 0 && h[2 * p + 1].y0 == -h[2 * p].y0)
      && (forall p :: 0 <= p && 2 * p + 3 < |h| ==> h[2 * p + 2].y0 == h[2 * p].y0 + interval)
  {
    var v, h := VerticalLines(interval, maxX, maxY), HorizontalLines(interval, maxX, maxY);
    forall p | 0 <= p && 2 * p + 1 < |v|
      ensures v[2 * p].x0 > 0 && v[2 * p + 1].x0 == -v[2 * p].x0
      ensures 2 * p + 3 < |v| ==> v[2 * p + 2].x0 == v[2 * p].x0 + interval
    {
      SignedStepPairs(interval, p);
    }
    forall p | 0 <= p && 2 * p + 1 < |h|
      ensures h[2 * p].y0 > 0 && h[2 * p + 1].y0 == -h[2 * p].y0
      ensures 2 * p + 3 < |h| ==> h[2 * p + 2].y0 == h[2 * p].y0 + interval
    {
      SignedStepPairs(interval, p);
    }
  }

  /** Labels: one per segment, in the same order; an X-axis line at x is labelled
      x at (x, 0), a Y-axis line at y is labelled -y at (0, y). */
  lemma GridLabelsFollowSegments(style: CheckerStyle, maxX: int, maxY: int, interval: nat)
    requires interval > 0
    ensures var r := GridAxis(style, maxX, maxY, interval, true);
      var nx := 2 * StepCount(interval, maxX);
      && |r.coordPoints| == |r.coordinates|
      && (forall j :: 0 <= j < nx ==>
            r.coordPoints[j] == Label(r.coordinates[j].x0, r.coordinates[j].x0, 0))
      && (forall j :: nx <= j < |r.coordinates| ==>
            r.coordPoints[j] == Label(-r.coordinates[j].y0, 0, r.coordinates[j].y0))
  {
  }

  /** Without labels: no labels, the same segments as the labelled call, and the
      line width scaled by 0.7 instead of the base width. */
  lemma UnlabelledGrid(style: CheckerStyle, maxX: int, maxY: int, interval: nat)
    requires interval > 0
    ensures var plain := GridAxis(style, maxX, maxY, interval, false);
      var labelled := GridAxis(style, maxX, maxY, interval, true);
      && plain.coordPoints == []
      && plain.coordinates == labelled.coordinates
      && labelled.attributes.axis.lineWidth == style.axis.lineWidth
      && plain.attributes.axis.lineWidth == style.axis.lineWidth * 7.0 / 10.0
      && plain.attributes.axis.strokeStyle == labelled.attributes.axis.strokeStyle == style.axis.strokeStyle
      && plain.attributes.point == labelled.attributes.point == style.point
  {
  }

  /** The 480 by 360 stage with the default interval: 4 + 4 vertical and 3 + 3
      horizontal lines, labelled at ±100 ... ±400 on X and ±100 ... ±300 on Y;
      the minor tier has 23 + 23 vertical and 17 + 17 horizontal lines. */
  lemma DefaultStageGrid()
    ensures StepCount(MajorInterval, 480) == 4 && StepCount(MajorInterval, 360) == 3
    ensures StepCount(MinorInterval, 480) == 23 && StepCount(MinorInterval, 360) == 17
    ensures XLabels(MajorInterval, 480) == [
      Label(100, 100, 0), Label(-100, -100, 0), Label(200, 200, 0), Label(-200, -200, 0),
      Label(300, 300, 0), Label(-300, -300, 0), Label(400, 400, 0), Label(-400, -400, 0)]
    ensures YLabels(MajorInterval, 360) == [
      Label(-100, 0, 100), Label(100, 0, -100), Label(-200, 0, 200), Label(200, 0, -200),
      Label(-300, 0, 300), Label(300, 0, -300)]
  {
    StepCountClosedForm(MajorInterval, 480);
    StepCountClosedForm(MajorInterval, 360);
    StepCountClosedForm(MinorInterval, 480);
    StepCountClosedForm(MinorInterval, 360);
  }
}
