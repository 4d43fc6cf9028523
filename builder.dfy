/**
 * The wave path builder of the package: seven variants that sample a wave
 * and assemble a closed, bottom-anchored outline into a reusable path buffer.
 *
 * The outline every variant produces is specified by the function Outline;
 * the method BuildWavePathByVariant is proved to leave exactly that command
 * list in the buffer, and the lemmas below state what the outline looks like.
 */
module WaveBuilder {
  import opened Js
  import opened SkiaPath
  import opened WaveTypes

  const POINTS: nat := 5

  /** Everything the builder reads besides the variant, the buffer and sin. */
  datatype PathArgs = PathArgs(
    width: real,
    height: real,
    baseY: real,
    waveHeight: real,
    tRad: real,
    tContinuousRad: real,
    phaseOffsetRad: real,
    roundness: real)

  // ---------------------------------------------------------------------------
  // Sampling

  function PointCount(v: Variant): nat {
    if v == Travel || v == Square then 7 else POINTS
  }

  function AmplitudeMultiplier(v: Variant): real {
    if v == Square then 0.8 else if v == Travel then 1.05 else 1.0
  }

  function SquareWave(sin: Sine, rad: real): real {
    if sin(rad) >= 0.0 then 1.0 else -1.0
  }

  /** The unit-amplitude sample of a variant at one point. */
  function SampleWave(sin: Sine, v: Variant, tRad: real, tContinuousRad: real,
                      phaseOffsetRad: real, phaseProgress: real, xRatio: real): real
  {
    var phase := tRad + phaseProgress * TAU + phaseOffsetRad;
    if v == Square then SquareWave(sin, phase)
    else if v == Ripple then
      var envelope := 0.35 + 0.65 * (1.0 - Abs(xRatio - 0.5) * 2.0);
      sin(phase) * envelope
    else if v == Travel then sin(xRatio * TAU * 1.75 + tContinuousRad * 1.4 + phaseOffsetRad)
    else sin(phase)
  }

  function PhaseProgress(v: Variant, index: nat, pointCount: nat): real
    requires pointCount >= 2
  {
    if v == Rounded || v == Choppy || v == Smooth then index as real / pointCount as real
    else index as real / (pointCount - 1) as real
  }

  function SegmentWidth(width: real, n: nat): real
    requires n >= 2
  {
    width / (n - 1) as real
  }

  /** x of sample i: i segment widths from the left edge. */
  function SampleX(width: real, n: nat, i: nat): real
    requires n >= 2
  {
    i as real * SegmentWidth(width, n)
  }

  function SampleY(sin: Sine, v: Variant, a: PathArgs, n: nat, i: nat): real
    requires n >= 2
  {
    var sample := SampleWave(sin, v, a.tRad, a.tContinuousRad, a.phaseOffsetRad,
                             PhaseProgress(v, i, n), i as real / (n - 1) as real);
    a.baseY + sample * a.waveHeight * AmplitudeMultiplier(v)
  }

  function Xs(width: real, n: nat): (xs: seq<real>)
    requires n >= 2
  {
    seq(n, i requires 0 <= i < n => SampleX(width, n, i))
  }

  function Ys(sin: Sine, v: Variant, a: PathArgs, n: nat): (ys: seq<real>)
    requires n >= 2
  {
    seq(n, i requires 0 <= i < n => SampleY(sin, v, a, n, i))
  }

  // ---------------------------------------------------------------------------
  // Crest assembly

  /** drawSmoothPath's neighbour lookup: the index clamped into [0, n-1]. */
  function ClampIndex(i: int, n: nat): (r: nat)
    requires n >= 1
    ensures r < n
    ensures 0 <= i < n ==> r == i
    ensures i < 0 ==> r == 0
    ensures i >= n ==> r == n - 1
  {
    if i > n - 1 then n - 1 else if i < 0 then 0 else i
  }

  /** The cubic drawSmoothPath emits for the span from sample k to sample k+1. */
  function SmoothSegment(xs: seq<real>, ys: seq<real>, k: nat): Cmd
    requires |xs| == |ys| && k + 1 < |xs|
  {
    var n := |xs|;
    var i0, i1, i2, i3 := ClampIndex(k - 1, n), ClampIndex(k, n), ClampIndex(k + 1, n), ClampIndex(k + 2, n);
    Cubic(xs[i1] + ((xs[i2] - xs[i0]) / 6.0) * 2.0, ys[i1] + ((ys[i2] - ys[i0]) / 6.0) * 2.0,
          xs[i2] - ((xs[i3] - xs[i1]) / 6.0) * 2.0, ys[i2] - ((ys[i3] - ys[i1]) / 6.0) * 2.0,
          xs[i2], ys[i2])
  }

  function SmoothCrest(xs: seq<real>, ys: seq<real>): seq<Cmd>
    requires |xs| == |ys|
  {
    seq(if |xs| == 0 then 0 else |xs| - 1, k requires 0 <= k < |xs| - 1 => SmoothSegment(xs, ys, k))
  }

  /** How consecutive samples are joined by the square, choppy and rounded variants. */
  datatype Joint = StepJoint | MidJoint | HandleJoint(handle: real)

  function SpanCmds(j: Joint, prevX: real, prevY: real, x: real, y: real): seq<Cmd> {
    match j
    case StepJoint =>
      var midX := (prevX + x) / 2.0;
      [Line(midX, prevY), Line(midX, y), Line(x, y)]
    case MidJoint =>
      var cpX := (prevX + x) / 2.0;
      [Quad(cpX, prevY, cpX, (prevY + y) / 2.0), Quad(cpX, y, x, y)]
    case HandleJoint(handle) =>
      var midX := (prevX + x) / 2.0;
      var midY := (prevY + y) / 2.0;
      [Quad(midX - handle, prevY, midX, midY), Quad(midX + handle, y, x, y)]
  }

  function SpanLength(j: Joint): nat {
    if j.StepJoint? then 3 else 2
  }

  /** The commands of the spans ending at samples 1 .. i-1. */
  function Joined(j: Joint, xs: seq<real>, ys: seq<real>, i: nat): seq<Cmd>
    requires |xs| == |ys| && 1 <= i <= |xs|
    decreases i
  {
    if i == 1 then [] else Joined(j, xs, ys, i - 1) + SpanCmds(j, xs[i - 2], ys[i - 2], xs[i - 1], ys[i - 1])
  }

  /** The rounded variant's control-point offset: half a segment, scaled by the roundness. */
  function Handle(width: real, n: nat, roundness: real): real
    requires n >= 2
  {
    SegmentWidth(width, n) * 0.5 * roundness
  }

  function JointOf(v: Variant, a: PathArgs, n: nat): Joint
    requires n >= 2
  {
    if v == Square then StepJoint
    else if v == Choppy then MidJoint
    else HandleJoint(Handle(a.width, n, a.roundness))
  }

  predicate UsesSmoothCrest(v: Variant) {
    v == Smooth || v == Ripple || v == Travel
  }

  function Crest(v: Variant, a: PathArgs, xs: seq<real>, ys: seq<real>): seq<Cmd>
    requires |xs| == |ys| == PointCount(v)
  {
    if UsesSmoothCrest(v) then SmoothCrest(xs, ys)
    else Joined(JointOf(v, a, |xs|), xs, ys, |xs|)
  }

  /** The pulse variant's three heights: left edge, centre peak, right edge. */
  function PulseLeftY(sin: Sine, a: PathArgs): real {
    a.baseY + sin(a.tRad + a.phaseOffsetRad) * a.waveHeight * 0.3
  }

  function PulsePeakY(sin: Sine, a: PathArgs): real {
    a.baseY + sin(a.tRad + a.phaseOffsetRad + PI * 0.5) * a.waveHeight * 1.8
  }

  function PulseRightY(sin: Sine, a: PathArgs): real {
    a.baseY + sin(a.tRad + a.phaseOffsetRad + PI) * a.waveHeight * 0.3
  }

  function PulseOutline(sin: Sine, a: PathArgs): seq<Cmd> {
    var leftY, peakY, rightY := PulseLeftY(sin, a), PulsePeakY(sin, a), PulseRightY(sin, a);
    [Move(0.0, a.height), Line(0.0, leftY),
     Cubic(a.width * 0.33, leftY, a.width * 0.25, peakY, a.width * 0.5, peakY),
     Cubic(a.width * 0.75, peakY, a.width * 0.67, rightY, a.width, rightY),
     Line(a.width, a.height), Close]
  }

  /** The outline of a sampled variant: up the left edge, along the crest, down the right edge. */
  function CrestOutline(v: Variant, a: PathArgs, xs: seq<real>, ys: seq<real>): seq<Cmd>
    requires |xs| == |ys| == PointCount(v)
  {
    [Move(0.0, a.height), Line(xs[0], ys[0])] + Crest(v, a, xs, ys) + [Line(a.width, a.height), Close]
  }

  /** The complete outline buildWavePathByVariant leaves in the buffer. */
  function Outline(sin: Sine, v: Variant, a: PathArgs): seq<Cmd> {
    if v == Pulse then PulseOutline(sin, a)
    else CrestOutline(v, a, Xs(a.width, PointCount(v)), Ys(sin, v, a, PointCount(v)))
  }

  // ---------------------------------------------------------------------------
  // The builder

  /** drawSmoothPath: appends the Catmull-Rom cubics through xs/ys. */
  method DrawSmoothPath(path: Path, xs: array<real>, ys: array<real>)
    requires xs.Length == ys.Length
    modifies path
    ensures path.cmds == old(path.cmds) + SmoothCrest(xs[..], ys[..])
  {
    var pointCount := xs.Length;
    ghost var start := path.cmds;
    var i := 0;
    while i < pointCount - 1
      invariant 0 <= i <= if pointCount == 0 then 0 else pointCount - 1
      invariant path.cmds == start + SmoothCrest(xs[..], ys[..])[..i]
    {
      var b0, b1, b2, b3 := ClampIndex(i - 1, pointCount), ClampIndex(i, pointCount),
                            ClampIndex(i + 1, pointCount), ClampIndex(i + 2, pointCount);
      var c1x := xs[b1] + ((xs[b2] - xs[b0]) / 6.0) * 2.0;
      var c1y := ys[b1] + ((ys[b2] - ys[b0]) / 6.0) * 2.0;
      var c2x := xs[b2] - ((xs[b3] - xs[b1]) / 6.0) * 2.0;
      var c2y := ys[b2] - ((ys[b3] - ys[b1]) / 6.0) * 2.0;
      path.CubicTo(c1x, c1y, c2x, c2y, xs[b2], ys[b2]);
      assert SmoothCrest(xs[..], ys[..])[..i + 1] == SmoothCrest(xs[..], ys[..])[..i] + [SmoothSegment(xs[..], ys[..], i)];
      i := i + 1;
    }
    assert SmoothCrest(xs[..], ys[..])[..i] == SmoothCrest(xs[..], ys[..]);
  }

  /** buildWavePathByVariant: resets the buffer and writes the variant's outline. */
  method BuildWavePathByVariant(v: Variant, path: Path, a: PathArgs, sin: Sine)
    modifies path
    ensures path.cmds == Outline(sin, v, a)
  {
    path.Reset();

    if v == Pulse {
      DrawPulse(path, a, sin);
      return;
    }

    var xs, ys := SampleCrest(v, a, sin);
    DrawCrestOutline(v, path, a, xs, ys);
  }

  /** The closed outline of a sampled variant: up the left edge, the crest, down the right edge. */
  method DrawCrestOutline(v: Variant, path: Path, a: PathArgs, xs: array<real>, ys: array<real>)
    requires v != Pulse && xs.Length == ys.Length == PointCount(v) && path.cmds == []
    modifies path
    ensures path.cmds == CrestOutline(v, a, xs[..], ys[..])
  {
    ghost var head := [Move(0.0, a.height), Line(xs[0], ys[0])];
    ghost var crest := Crest(v, a, xs[..], ys[..]);
    assert CrestOutline(v, a, xs[..], ys[..]) == head + crest + [Line(a.width, a.height)] + [Cmd.Close];

    path.MoveTo(0.0, a.height);
    path.LineTo(xs[0], ys[0]);
    DrawCrest(v, path, a, xs, ys);
    assert path.cmds == head + crest;
    path.LineTo(a.width, a.height);
    path.Close();
  }

  /**
   * The variant dispatch after the first sample: smooth, ripple and travel
   * draw Catmull-Rom cubics, square draws steps, choppy and rounded draw
   * pairs of quadratics.
   */
  method DrawCrest(v: Variant, path: Path, a: PathArgs, xs: array<real>, ys: array<real>)
    requires v != Pulse && xs.Length == ys.Length == PointCount(v)
    modifies path
    ensures path.cmds == old(path.cmds) + Crest(v, a, xs[..], ys[..])
  {
    var pointCount := PointCount(v);
    var segmentWidth := SegmentWidth(a.width, pointCount);

    if v == Smooth {
      DrawSmoothPath(path, xs, ys);
      return;
    }

    if v == Ripple || v == Travel {
      DrawSmoothPath(path, xs, ys);
      return;
    }

    if v == Square {
      DrawSteps(path, xs, ys);
      return;
    }

    var handle := segmentWidth * 0.5 * a.roundness;
    assert handle == Handle(a.width, pointCount, a.roundness);
    DrawQuadSpans(path, xs, ys, v == Choppy, handle);
  }

  /** The pulse branch: one bump of two cubic arcs meeting at the centre peak. */
  method DrawPulse(path: Path, a: PathArgs, sin: Sine)
    requires path.cmds == []
    modifies path
    ensures path.cmds == PulseOutline(sin, a)
  {
    var leftY := PulseLeftY(sin, a);
    var peakY := PulsePeakY(sin, a);
    var rightY := PulseRightY(sin, a);
    path.MoveTo(0.0, a.height);
    path.LineTo(0.0, leftY);
    path.CubicTo(a.width * 0.33, leftY, a.width * 0.25, peakY, a.width * 0.5, peakY);
    path.CubicTo(a.width * 0.75, peakY, a.width * 0.67, rightY, a.width, rightY);
    path.LineTo(a.width, a.height);
    path.Close();
  }

  /** The sampling loop: fills fresh xs/ys arrays with the variant's crest points. */
  method SampleCrest(v: Variant, a: PathArgs, sin: Sine) returns (xs: array<real>, ys: array<real>)
    requires v != Pulse
    ensures fresh(xs) && fresh(ys)
    ensures xs.Length == ys.Length == PointCount(v)
    ensures xs[..] == Xs(a.width, PointCount(v)) && ys[..] == Ys(sin, v, a, PointCount(v))
  {
    var pointCount := PointCount(v);
    xs := new real[pointCount];
    ys := new real[pointCount];

    for i := 0 to pointCount
      invariant forall k :: 0 <= k < i ==> xs[k] == SampleX(a.width, pointCount, k)
      invariant forall k :: 0 <= k < i ==> ys[k] == SampleY(sin, v, a, pointCount, k)
    {
      xs[i] := SampleX(a.width, pointCount, i);
      ys[i] := SampleY(sin, v, a, pointCount, i);
    }
    assert xs[..] == Xs(a.width, pointCount);
    assert ys[..] == Ys(sin, v, a, pointCount);
  }

  /** The square branch: a horizontal, a vertical and a horizontal line per span. */
  method DrawSteps(path: Path, xs: array<real>, ys: array<real>)
    requires xs.Length == ys.Length >= 1
    modifies path
    ensures path.cmds == old(path.cmds) + Joined(StepJoint, xs[..], ys[..], xs.Length)
  {
    ghost var head := path.cmds;
    for i := 1 to xs.Length
      invariant path.cmds == head + Joined(StepJoint, xs[..], ys[..], i)
    {
      var prevX := xs[i - 1];
      var prevY := ys[i - 1];
      var x := xs[i];
      var y := ys[i];
      var midX := (prevX + x) / 2.0;
      path.LineTo(midX, prevY);
      path.LineTo(midX, y);
      path.LineTo(x, y);
    }
  }

  /**
   * The choppy and rounded branches: two quadratics per span, threading the
   * previous point through the loop. Rounded spreads its control points by
   * `handle` either side of the span midpoint.
   */
  method DrawQuadSpans(path: Path, xs: array<real>, ys: array<real>, choppy: bool, handle: real)
    requires xs.Length == ys.Length >= 1
    modifies path
    ensures path.cmds == old(path.cmds)
      + Joined(if choppy then MidJoint else HandleJoint(handle), xs[..], ys[..], xs.Length)
  {
    ghost var head := path.cmds;
    ghost var joint := if choppy then MidJoint else HandleJoint(handle);
    var prevX := xs[0];
    var prevY := ys[0];

    for i := 1 to xs.Length
      invariant prevX == xs[i - 1] && prevY == ys[i - 1]
      invariant path.cmds == head + Joined(joint, xs[..], ys[..], i)
    {
      var x := xs[i];
      var y := ys[i];

      if choppy {
        var cpX := (prevX + x) / 2.0;
        path.QuadTo(cpX, prevY, cpX, (prevY + y) / 2.0);
        path.QuadTo(cpX, y, x, y);
      } else {
        var midX := (prevX + x) / 2.0;
        var midY := (prevY + y) / 2.0;
        var c1x := midX - handle;
        var c2x := midX + handle;
        path.QuadTo(c1x, prevY, midX, midY);
        path.QuadTo(c2x, y, x, y);
      }

      prevX := x;
      prevY := y;
    }
  }
}
